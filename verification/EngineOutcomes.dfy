/**
 How each command of the client ends: a closed form, for every run, in terms of the events the
 client has seen, the time the command was sent and the time it was cancelled.
 */
module EngineOutcomes {
  import opened Common
  import opened EngineEvents

  /** The event tells of more dropped events than any seen before it. */
  predicate ShowsLoss(seen: seq<Event>, i: nat)
    requires i < |seen|
  {
    seen[i].dropped > 0 && forall j :: 0 <= j < i ==> seen[j].dropped < seen[i].dropped
  }

  /** Seeing event `i` ends the waiting of the request, for better or worse. */
  predicate Ends(seen: seq<Event>, a: Asked, r: nat, i: nat)
    requires i < |seen|
  {
    ShowsLoss(seen, i) || Completes(seen[i], r, a.expected)
  }

  /** None of the events from the request up to the `n`th ends it. */
  predicate Quiet(seen: seq<Event>, a: Asked, r: nat, n: nat)
    requires n <= |seen|
  {
    forall i :: a.since <= i < n ==> !Ends(seen, a, r, i)
  }

  /** Event `i` is the one that ends the request, which was not cancelled before. */
  predicate EndsAt(seen: seq<Event>, a: Asked, r: nat, i: nat) {
    && a.since <= i < |seen| && Ends(seen, a, r, i) && Quiet(seen, a, r, i)
    && (a.cancelledAt.Some? ==> i < a.cancelledAt.value)
  }

  /** Nothing has happened to the request yet. */
  predicate Open(seen: seq<Event>, a: Asked, r: nat) {
    a.cancelledAt == None && Quiet(seen, a, r, |seen|)
  }

  /** What must have happened for the request to end with the outcome. */
  ghost predicate Deserves(c: Client, seen: seq<Event>, a: Asked, r: nat, o: Outcome) {
    match o
    case Returned(e) => e.kind != TorrentError && exists i: nat :: EndsAt(seen, a, r, i) && !ShowsLoss(seen, i) && seen[i] == e
    case Refused(e) => e.kind == TorrentError && exists i: nat :: EndsAt(seen, a, r, i) && !ShowsLoss(seen, i) && seen[i] == e
    case Lost => exists i: nat :: EndsAt(seen, a, r, i) && ShowsLoss(seen, i)
    case Cancelled => a.cancelledAt.Some? && a.cancelledAt.value <= |seen| && Quiet(seen, a, r, a.cancelledAt.value)
    case PollingFailed => c.failed && Open(seen, a, r)
    case Closed => !c.failed && !c.open && Open(seen, a, r)
  }

  /** An outcome is deserved by one history only. */
  lemma OneOutcome(c: Client, seen: seq<Event>, a: Asked, r: nat, o: Outcome, p: Outcome)
    requires Deserves(c, seen, a, r, o) && Deserves(c, seen, a, r, p)
    ensures o == p
  {
    if i: nat :| EndsAt(seen, a, r, i) {
      assert !Open(seen, a, r);
      forall j: nat | EndsAt(seen, a, r, j) ensures i == j {
        OneEnd(seen, a, r, i, j);
      }
    }
  }

  lemma OneEnd(seen: seq<Event>, a: Asked, r: nat, i: nat, j: nat)
    requires EndsAt(seen, a, r, i) && EndsAt(seen, a, r, j)
    ensures i == j
  {
  }

  // ----- what every step keeps -----

  /** The client remembers the greatest drop count it has seen. */
  ghost predicate RemembersDrops(seen: seq<Event>, lastDropped: nat) {
    && (forall i :: 0 <= i < |seen| ==> seen[i].dropped <= lastDropped)
    && (lastDropped == 0 || exists i :: 0 <= i < |seen| && seen[i].dropped == lastDropped)
  }

  predicate Dated(seen: seq<Event>, a: Asked) {
    a.since <= |seen| && (a.cancelledAt.Some? ==> a.since <= a.cancelledAt.value <= |seen|)
  }

  /** The request waits, or has the outcome it deserves. */
  ghost predicate Fated(c: Client, seen: seq<Event>, a: Asked, r: nat) {
    && Dated(seen, a)
    && (r in c.pending ==> Usable(c) && Open(seen, a, r) && c.pending[r] == a.expected)
    && (r !in c.pending ==> r in c.outcomes && Deserves(c, seen, a, r, c.outcomes[r]))
  }

  ghost predicate AllFated(s: System) {
    && RemembersDrops(s.seen, s.client.lastDropped)
    && (forall r :: r in s.asked <==> 1 <= r < s.nextRequestId)
    && (forall r :: r in s.client.pending ==> r in s.asked)
    && (forall r :: r in s.asked ==> Fated(s.client, s.seen, s.asked[r], r))
  }

  lemma LossIff(seen: seq<Event>, lastDropped: nat, e: Event)
    requires RemembersDrops(seen, lastDropped)
    ensures ShowsLoss(seen + [e], |seen|) <==> e.dropped > lastDropped
    ensures RemembersDrops(seen + [e], if e.dropped > lastDropped then e.dropped else lastDropped)
  {
    var more := seen + [e];
    assert forall i :: 0 <= i < |seen| ==> more[i] == seen[i];
    assert more[|seen|] == e;
    if lastDropped > 0 {
      var i :| 0 <= i < |seen| && seen[i].dropped == lastDropped;
      assert more[i].dropped == lastDropped;
    }
  }

  /** What was seen does not change its meaning when more is seen. */
  lemma SeenStays(seen: seq<Event>, e: Event, a: Asked, r: nat)
    ensures forall i :: 0 <= i < |seen| ==> ShowsLoss(seen + [e], i) == ShowsLoss(seen, i)
    ensures forall i :: 0 <= i < |seen| ==> Ends(seen + [e], a, r, i) == Ends(seen, a, r, i)
    ensures forall n :: 0 <= n <= |seen| ==> Quiet(seen + [e], a, r, n) == Quiet(seen, a, r, n)
    ensures forall i :: 0 <= i < |seen| ==> EndsAt(seen + [e], a, r, i) == EndsAt(seen, a, r, i)
  {
    var more := seen + [e];
    assert forall i :: 0 <= i < |seen| ==> more[i] == seen[i];
    forall i | 0 <= i < |seen| ensures Ends(more, a, r, i) == Ends(seen, a, r, i) {
      assert ShowsLoss(more, i) == ShowsLoss(seen, i);
    }
    forall n | 0 <= n <= |seen| ensures Quiet(more, a, r, n) == Quiet(seen, a, r, n) {
      assert forall i :: a.since <= i < n ==> Ends(more, a, r, i) == Ends(seen, a, r, i);
    }
  }

  /** An ended request keeps its outcome when one more event is seen. */
  lemma DeservedStays(c: Client, c': Client, seen: seq<Event>, e: Event, a: Asked, r: nat, o: Outcome)
    requires Deserves(c, seen, a, r, o) && Usable(c) && Usable(c')
    ensures Deserves(c', seen + [e], a, r, o)
  {
    SeenStays(seen, e, a, r);
    if o.Returned? || o.Refused? || o.Lost? {
      var i: nat :| EndsAt(seen, a, r, i) && (o.Lost? <==> ShowsLoss(seen, i)) && (!o.Lost? ==> seen[i] == o.event);
      assert EndsAt(seen + [e], a, r, i) && (seen + [e])[i] == seen[i];
    }
  }

  /** The last event decides about a request that was open. */
  lemma LastDecides(seen: seq<Event>, e: Event, a: Asked, r: nat)
    requires Dated(seen, a) && Open(seen, a, r)
    ensures var more := seen + [e];
      && (Ends(more, a, r, |seen|) ==> EndsAt(more, a, r, |seen|))
      && (!Ends(more, a, r, |seen|) ==> Open(more, a, r))
  {
    SeenStays(seen, e, a, r);
  }

  lemma PollFates(c: Client, seen: seq<Event>, e: Event, a: Asked, r: nat)
    requires Usable(c) && RemembersDrops(seen, c.lastDropped) && Fated(c, seen, a, r) && r >= 1
    ensures Fated(Process(c, e), seen + [e], a, r)
  {
    var c', more := Process(c, e), seen + [e];
    if r !in c.pending {
      ProcessKeepsOthers(c, e, r);
      DeservedStays(c, c', seen, e, a, r, c.outcomes[r]);
    } else {
      LossIff(seen, c.lastDropped, e);
      LastDecides(seen, e, a, r);
      assert more[|seen|] == e;
      ProcessDecides(c, e, r);
    }
  }

  lemma ProcessKeepsOthers(c: Client, e: Event, r: nat)
    requires r !in c.pending && r in c.outcomes
    ensures var c' := Process(c, e);
      r !in c'.pending && r in c'.outcomes && c'.outcomes[r] == c.outcomes[r] && Usable(c') == Usable(c)
  {
  }

  /** What one event does to a waiting command. */
  lemma ProcessDecides(c: Client, e: Event, r: nat)
    requires r in c.pending && r >= 1
    ensures var c' := Process(c, e);
      && Usable(c') == Usable(c)
      && (e.dropped > c.lastDropped ==> r !in c'.pending && r in c'.outcomes && c'.outcomes[r] == Lost)
      && (e.dropped <= c.lastDropped && Completes(e, r, c.pending[r]) ==>
          r !in c'.pending && r in c'.outcomes && c'.outcomes[r] == if e.kind == TorrentError then Refused(e) else Returned(e))
      && (e.dropped <= c.lastDropped && !Completes(e, r, c.pending[r]) ==>
          r in c'.pending && c'.pending[r] == c.pending[r])
  {
  }

  lemma PollKeepsFates(s: System)
    requires AllFated(s) && Usable(s.client) && s.queue.events != []
    ensures AllFated(Next(s, PollEvent(false)))
  {
    var e := s.queue.events[0];
    var c' := Process(s.client, e);
    LossIff(s.seen, s.client.lastDropped, e);
    forall r | r in s.asked ensures Fated(c', s.seen + [e], s.asked[r], r) {
      PollFates(s.client, s.seen, e, s.asked[r], r);
    }
    assert c'.pending.Keys <= s.client.pending.Keys;
    assert Next(s, PollEvent(false)).seen == s.seen + [e] && Next(s, PollEvent(false)).client == c';
  }

  /** The client dies: whoever waits gets the error of that. */
  lemma DeathFates(c: Client, c': Client, seen: seq<Event>, a: Asked, r: nat)
    requires Fated(c, seen, a, r) && (c' == Close(c) || (c' == FailPolling(c) && Usable(c)))
    ensures Fated(c', seen, a, r)
  {
    if r in c.pending {
      assert c'.outcomes[r] == if c' == Close(c) then Closed else PollingFailed;
    } else {
      assert c'.outcomes[r] == c.outcomes[r];
    }
  }

  lemma DeathKeepsFates(s: System, c: Client)
    requires AllFated(s) && (c == Close(s.client) || (c == FailPolling(s.client) && Usable(s.client)))
    ensures AllFated(s.(client := c))
  {
    forall r | r in s.asked ensures Fated(c, s.seen, s.asked[r], r) {
      DeathFates(s.client, c, s.seen, s.asked[r], r);
    }
  }

  lemma SubmitKeepsFates(s: System, expected: EventKind, cancelled: bool)
    requires AllFated(s) && Usable(s.client) && s.nextRequestId >= 1
    ensures AllFated(Next(s, Submit(expected, true, cancelled)))
  {
    var s' := Next(s, Submit(expected, true, cancelled));
    var r := s.nextRequestId;
    assert Fated(s'.client, s'.seen, s'.asked[r], r);
    forall x | x in s.asked ensures Fated(s'.client, s'.seen, s'.asked[x], x) {
      OthersUnmoved(s.client, s'.client, s.seen, s.asked[x], x);
    }
  }

  lemma OthersUnmoved(c: Client, c': Client, seen: seq<Event>, a: Asked, r: nat)
    requires Fated(c, seen, a, r) && c.failed == c'.failed && c.open == c'.open
    requires r in c.pending <==> r in c'.pending
    requires r in c.pending ==> c.pending[r] == c'.pending[r]
    requires r !in c.pending ==> r in c.outcomes && r in c'.outcomes && c.outcomes[r] == c'.outcomes[r]
    ensures Fated(c', seen, a, r)
  {
  }

  /** Cancelling a request that still waits decides it; later it changes nothing. */
  lemma CancelFates(c: Client, seen: seq<Event>, a: Asked, r: nat)
    requires Fated(c, seen, a, r) && Usable(c) && a.cancelledAt == None
    ensures Fated(Cancel(c, r), seen, a.(cancelledAt := Some(|seen|)), r)
  {
    var b := a.(cancelledAt := Some(|seen|));
    assert forall i :: 0 <= i < |seen| ==> Ends(seen, b, r, i) == Ends(seen, a, r, i);
    assert Quiet(seen, b, r, |seen|) == Quiet(seen, a, r, |seen|);
    if r !in c.pending {
      forall i: nat | EndsAt(seen, a, r, i) ensures EndsAt(seen, b, r, i) {
        assert Quiet(seen, b, r, i) == Quiet(seen, a, r, i);
      }
    }
  }

  lemma CancelKeepsFates(s: System, r: nat)
    requires AllFated(s) && (!Usable(s.client) ==> s.client.pending == map[])
    ensures AllFated(Next(s, CancelTask(r)))
  {
    var s' := Next(s, CancelTask(r));
    forall x | x in s.asked ensures Fated(s'.client, s'.seen, s'.asked[x], x) {
      if x == r && s'.asked[r] != s.asked[r] {
        CancelFates(s.client, s.seen, s.asked[r], r);
      } else {
        OthersUnmoved(s.client, s'.client, s.seen, s.asked[x], x);
      }
    }
  }

  lemma StepKeepsFates(s: System, step: Step)
    requires AllFated(s) && EngineEvents.Sound(s)
    ensures AllFated(Next(s, step))
  {
    match step
    case PushEvent(_, _) =>
    case PollEvent(malformed) =>
      if Usable(s.client) && s.queue.events != [] {
        if malformed {
          DeathKeepsFates(s, FailPolling(s.client));
        } else {
          PollKeepsFates(s);
        }
      }
    case PollError =>
      if Usable(s.client) {
        DeathKeepsFates(s, FailPolling(s.client));
      }
    case Submit(expected, accepted, cancelled) =>
      if Usable(s.client) && accepted {
        SubmitKeepsFates(s, expected, cancelled);
      }
    case CancelTask(r) => CancelKeepsFates(s, r);
    case Shutdown => DeathKeepsFates(s, Close(s.client));
  }

  lemma {:induction false} RunsAreFated(capacity: Capacity, steps: seq<Step>)
    requires IsRun(capacity, steps)
    ensures AllFated(After(capacity, steps))
  {
    if steps != [] {
      RunsAreFated(capacity, steps[..|steps| - 1]);
      RunsAreSound(capacity, steps[..|steps| - 1]);
      StepKeepsFates(After(capacity, steps[..|steps| - 1]), steps[|steps| - 1]);
    }
  }

  // ----- the closed form -----

  /**
   In every run of a usable client a request waits exactly if it was accepted, not cancelled, and no
   event seen since it was sent completes it or tells of newly dropped events.
   */
  lemma WaitsExactly(capacity: Capacity, steps: seq<Step>, r: nat)
    requires IsRun(capacity, steps) && Usable(After(capacity, steps).client)
    ensures var s := After(capacity, steps);
      && (r in s.asked <==> 1 <= r < s.nextRequestId)
      && (r in s.client.pending <==> r in s.asked && Open(s.seen, s.asked[r], r))
  {
    RunsAreFated(capacity, steps);
    var s := After(capacity, steps);
    if r in s.asked && r !in s.client.pending && Open(s.seen, s.asked[r], r) {
      NoOutcomeYet(s.client, s.seen, s.asked[r], r, s.client.outcomes[r]);
    }
  }

  lemma NoOutcomeYet(c: Client, seen: seq<Event>, a: Asked, r: nat, o: Outcome)
    requires Usable(c) && Open(seen, a, r)
    ensures !Deserves(c, seen, a, r, o)
  {
  }

  /** A request ends with an outcome exactly if its history deserves that outcome, for every outcome. */
  lemma EndsExactly(capacity: Capacity, steps: seq<Step>, r: nat, o: Outcome)
    requires IsRun(capacity, steps) && r in After(capacity, steps).asked
    ensures var s := After(capacity, steps);
      r in s.client.outcomes && r !in s.client.pending && s.client.outcomes[r] == o
      <==> Deserves(s.client, s.seen, s.asked[r], r, o)
  {
    RunsAreFated(capacity, steps);
    var s := After(capacity, steps);
    if Deserves(s.client, s.seen, s.asked[r], r, o) {
      if r in s.client.pending {
        NoOutcomeYet(s.client, s.seen, s.asked[r], r, o);
      } else {
        OneOutcome(s.client, s.seen, s.asked[r], r, o, s.client.outcomes[r]);
      }
    }
  }

  /**
   While no event is dropped, exactly those requests wait that were accepted, were not cancelled and
   have not had their completion polled.
   */
  lemma NothingDroppedNothingLost(capacity: Capacity, steps: seq<Step>, r: nat)
    requires IsRun(capacity, steps)
    requires var s := After(capacity, steps); Usable(s.client) && s.queue.dropped == 0
    ensures var s := After(capacity, steps);
      r in s.client.pending <==>
      && r in s.asked && s.asked[r].cancelledAt == None
      && forall i :: s.asked[r].since <= i < |s.seen| ==> !Completes(s.seen[i], r, s.asked[r].expected)
  {
    RunsAreFated(capacity, steps);
    RunsAreSound(capacity, steps);
    WaitsExactly(capacity, steps, r);
    var s := After(capacity, steps);
    if r in s.asked {
      OpenWithoutLoss(s.seen, s.asked[r], r);
    }
  }

  lemma OpenWithoutLoss(seen: seq<Event>, a: Asked, r: nat)
    requires Dated(seen, a) && forall i :: 0 <= i < |seen| ==> seen[i].dropped == 0
    ensures Open(seen, a, r) <==>
      a.cancelledAt == None && forall i :: a.since <= i < |seen| ==> !Completes(seen[i], r, a.expected)
  {
    assert forall i :: a.since <= i < |seen| ==> Ends(seen, a, r, i) == Completes(seen[i], r, a.expected);
  }
}
