/**
 Whom the stream bridge plans for: which demands lack data, and where each torrent is anchored,
 in every run.
 */
module StreamBridgePlanning {
  import opened Common
  import opened StreamBridge
  import opened StreamBridgeSafety
  import opened StreamBridgeLookups

  // ----- the anchor of a torrent -----

  /** The torrent is anchored, without prefetch, at the newest of its demands that lacks data. */
  ghost predicate Anchored(t: Tables, id: Torrent) {
    forall d :: IsFocus(t, id, d) ==> id in t.anchors && t.anchors[id] == StreamAnchor(t.demands[d].route, false)
  }

  ghost predicate SameDemands(t: Tables, t': Tables, id: Torrent) {
    forall d :: && (ActiveFor(t, d, id) <==> ActiveFor(t', d, id))
                && (ActiveFor(t, d, id) ==> t'.demands[d] == t.demands[d])
  }

  ghost predicate SameAnchor(t: Tables, t': Tables, id: Torrent) {
    (id in t.anchors <==> id in t'.anchors) && (id in t.anchors ==> t'.anchors[id] == t.anchors[id])
  }

  lemma SameStaysAnchored(t: Tables, t': Tables, id: Torrent)
    requires Anchored(t, id) && SameDemands(t, t', id) && SameAnchor(t, t', id)
    ensures Anchored(t', id)
  {
    forall d | IsFocus(t', id, d)
      ensures id in t'.anchors && t'.anchors[id] == StreamAnchor(t'.demands[d].route, false)
    {
      SameFocus(t, t', id, d);
    }
  }

  lemma SameFocus(t: Tables, t': Tables, id: Torrent, d: nat)
    requires SameDemands(t, t', id) && IsFocus(t', id, d)
    ensures IsFocus(t, id, d) && t.demands[d] == t'.demands[d]
  {
    assert ActiveFor(t', d, id);
    forall e | e in t.demands && t.demands[e].route.torrent == id && t.demands[e].needsData ensures e <= d {
      assert ActiveFor(t, e, id);
    }
  }

  lemma IdleIsAnchored(t: Tables, id: Torrent)
    requires forall d :: !ActiveFor(t, d, id)
    ensures Anchored(t, id)
  {
    forall d | IsFocus(t, id, d) ensures false {
      assert ActiveFor(t, d, id);
    }
  }

  lemma RecomputeAnchors(t: Tables, id: Torrent)
    ensures Anchored(Recompute(t, id, true), id)
  {
    var t' := Recompute(t, id, true);
    forall d | IsFocus(t', id, d)
      ensures id in t'.anchors && t'.anchors[id] == StreamAnchor(t'.demands[d].route, false)
    {
      assert IsFocus(t, id, d);
      assert forall e :: IsFocus(t, id, e) ==> e == d;
    }
  }

  lemma RecomputeLeaves(t: Tables, id: Torrent, planned: bool, other: Torrent)
    ensures SameDemands(t, Recompute(t, id, planned), other)
    ensures other != id || !planned ==> SameAnchor(t, Recompute(t, id, planned), other)
  {
  }

  /** A new plan spoils nobody's anchor. */
  lemma RecomputeStaysAnchored(t: Tables, id: Torrent, planned: bool, other: Torrent)
    requires Anchored(t, other)
    ensures Anchored(Recompute(t, id, planned), other)
  {
    if other == id && planned {
      RecomputeAnchors(t, id);
    } else {
      RecomputeLeaves(t, id, planned, other);
      SameStaysAnchored(t, Recompute(t, id, planned), other);
    }
  }

  // ----- commands -----

  /** A command changes the demands of no torrent but those it is noted for. */
  lemma OnlyTouchedChange(t: Tables, c: Command, needsData: bool, reading: Reading, id: Torrent)
    requires id !in Touched(t, c)
    requires c.BeginDemand? && c.demand in t.demands ==> t.demands[c.demand].route == c.route
    ensures var t' := ProcessCommand(t, c, needsData, reading);
      SameDemands(t, t', id) && t'.anchors == t.anchors
  {
    match c
    case BeginDemand(d, r) =>
    case EndDemand(d) =>
    case ReadPiece(d, key, w) =>
      assert ProcessCommand(t, c, needsData, reading) == ProcessRead(t, c, reading);
      ReadChangesOwn(t, c, reading, id);
  }

  lemma ReadChangesOwn(t: Tables, c: Command, reading: Reading, id: Torrent)
    requires c.ReadPiece? && id !in Touched(t, c)
    ensures SameDemands(t, ProcessRead(t, c, reading), id) && ProcessRead(t, c, reading).anchors == t.anchors
  {
  }

  // ----- the other operations -----

  /** The streams all belong to one torrent, if they have a route at all. */
  predicate StreamsOf(t: Tables, streams: set<Stream>, id: Torrent) {
    forall x :: x in streams && x in t.routes ==> t.routes[x] == id
  }

  lemma StopLeavesOthers(t: Tables, streams: set<Stream>, id: Torrent, other: Torrent)
    requires DemandsSound(t) && AnchorsSound(t) && StreamsOf(t, streams, id) && other != id
    ensures SameDemands(t, StopStreams(t, streams), other) && SameAnchor(t, StopStreams(t, streams), other)
  {
    var t' := StopStreams(t, streams);
    assert t'.demands == t.demands - DemandsOf(t, streams);
    forall d | ActiveFor(t, d, other) ensures d in t'.demands {
      assert RouteLive(t, t.demands[d].route);
    }
    if other in t.anchors {
      assert RouteLive(t, t.anchors[other].route);
    }
  }

  lemma StopEndsAll(t: Tables, streams: set<Stream>, id: Torrent)
    requires DemandsSound(t) && forall x :: x in t.routes && t.routes[x] == id ==> x in streams
    ensures forall d :: !ActiveFor(StopStreams(t, streams), d, id)
  {
    var t' := StopStreams(t, streams);
    assert t'.demands == t.demands - DemandsOf(t, streams);
    forall d | ActiveFor(t, d, id) ensures d in DemandsOf(t, streams) {
      assert RouteLive(t, t.demands[d].route);
    }
  }

  lemma StopStreamsStaysAnchored(t: Tables, streams: set<Stream>, id: Torrent, other: Torrent)
    requires DemandsSound(t) && AnchorsSound(t) && Anchored(t, other) && StreamsOf(t, streams, id)
    requires forall x :: x in t.routes && t.routes[x] == id ==> x in streams
    ensures Anchored(StopStreams(t, streams), other)
  {
    if other == id {
      StopEndsAll(t, streams, id);
      IdleIsAnchored(StopStreams(t, streams), id);
    } else {
      StopLeavesOthers(t, streams, id, other);
      SameStaysAnchored(t, StopStreams(t, streams), other);
    }
  }

  lemma StopStaysAnchored(t: Tables, owners: map<Stream, Torrent>, stream: Stream, planned: bool, id: Torrent)
    requires RoutesSound(t, owners) && DemandsSound(t) && AnchorsSound(t) && Anchored(t, id)
    ensures Anchored(StopStream(t, stream, planned), id)
  {
    var t' := StopStreams(t, {stream});
    if stream in t.routes {
      StopStreamsStaysAnchored(t, {stream}, t.routes[stream], id);
      RecomputeStaysAnchored(t', t.routes[stream], planned, id);
    } else {
      UnroutedStop(t, stream, id);
      SameStaysAnchored(t, t', id);
    }
  }

  /** A stream without a route has nothing to lose. */
  lemma UnroutedStop(t: Tables, stream: Stream, id: Torrent)
    requires DemandsSound(t) && AnchorsSound(t) && stream !in t.routes
    ensures SameDemands(t, StopStreams(t, {stream}), id) && SameAnchor(t, StopStreams(t, {stream}), id)
  {
    var t' := StopStreams(t, {stream});
    assert t'.demands == t.demands - DemandsOf(t, {stream});
    forall d | d in t.demands ensures d in t'.demands {
      assert RouteLive(t, t.demands[d].route);
    }
    if id in t.anchors {
      assert RouteLive(t, t.anchors[id].route);
    }
  }

  lemma RegisterStaysAnchored(t: Tables, owners: map<Stream, Torrent>, r: Route, nonEmpty: bool, planned: bool, id: Torrent)
    requires RoutesSound(t, owners) && DemandsSound(t) && AnchorsSound(t) && Anchored(t, id)
    ensures Anchored(RegisterStream(t, r, nonEmpty, planned), id)
  {
    var previous := set s | s in t.routes && t.routes[s] == r.torrent;
    var u := StopStreams(t, previous);
    StopStreamsStaysAnchored(t, previous, r.torrent, id);
    StopEndsAll(t, previous, r.torrent);
    var v := u.(routes := u.routes[r.stream := r.torrent], revoked := u.revoked - {r.torrent});
    SameStaysAnchored(u, v, id);
    if nonEmpty {
      NewAnchorStaysAnchored(v, r, planned, id);
    }
  }

  lemma NewAnchorStaysAnchored(t: Tables, r: Route, planned: bool, id: Torrent)
    requires Anchored(t, id) && forall d :: !ActiveFor(t, d, r.torrent)
    ensures Anchored(Recompute(t.(anchors := t.anchors[r.torrent := StreamAnchor(r, true)]), r.torrent, planned), id)
  {
    var u := t.(anchors := t.anchors[r.torrent := StreamAnchor(r, true)]);
    if id == r.torrent {
      forall d ensures !ActiveFor(u, d, id) {
        assert !ActiveFor(t, d, id);
      }
      IdleIsAnchored(u, id);
    } else {
      SameStaysAnchored(t, u, id);
    }
    RecomputeStaysAnchored(u, r.torrent, planned, id);
  }

  lemma RemoveStaysAnchored(t: Tables, removed: Torrent, planned: bool, id: Torrent)
    requires Anchored(t, id)
    ensures Anchored(RemoveTorrent(t, removed, planned), id)
  {
    var u := Cleared(t, removed);
    if id == removed {
      IdleIsAnchored(u, id);
    } else {
      ClearLeavesOthers(t, removed, id);
      SameStaysAnchored(t, u, id);
    }
    RecomputeStaysAnchored(u, removed, planned, id);
  }

  lemma ClearLeavesOthers(t: Tables, removed: Torrent, id: Torrent)
    requires id != removed
    ensures SameDemands(t, Cleared(t, removed), id) && SameAnchor(t, Cleared(t, removed), id)
  {
  }

  /** A stream that expires has no demand, so no focus loses its anchor. */
  lemma ExpireStaysAnchored(t: Tables, stream: Stream, planned: bool, id: Torrent)
    requires Anchored(t, id) && stream in t.routes
    ensures Anchored(Recompute(Expire(t, stream), t.routes[stream], planned), id)
  {
    var u := Expire(t, stream);
    if DemandsOf(t, {stream}) == {} {
      forall d | IsFocus(u, id, d)
        ensures id in u.anchors && u.anchors[id] == StreamAnchor(u.demands[d].route, false)
      {
        assert IsFocus(t, id, d);
        assert d !in DemandsOf(t, {stream});
      }
    }
    RecomputeStaysAnchored(u, t.routes[stream], planned, id);
  }

  lemma BlockStaysAnchored(t: Tables, key: Key, block: nat, planned: bool, id: Torrent)
    requires Anchored(t, id)
    ensures Anchored(Recompute(BlockFinished(t, key, block), key.torrent, planned), id)
  {
    SameStaysAnchored(t, BlockFinished(t, key, block), id);
    RecomputeStaysAnchored(BlockFinished(t, key, block), key.torrent, planned, id);
  }

  lemma OperationStaysAnchored(t: Tables, owners: map<Stream, Torrent>, step: Step, id: Torrent)
    requires RoutesSound(t, owners) && DemandsSound(t) && AnchorsSound(t) && Anchored(t, id)
    ensures Anchored(Operate(t, step), id)
  {
    match step
    case Register(r, nonEmpty, planned) => RegisterStaysAnchored(t, owners, r, nonEmpty, planned, id);
    case Stop(stream, planned) => StopStaysAnchored(t, owners, stream, planned, id);
    case Remove(removed, planned) => RemoveStaysAnchored(t, removed, planned, id);
    case DeliverPiece(key, succeeded) => SameStaysAnchored(t, FinishPiece(t, key, if succeeded then Data(key) else Failed), id);
    case DeliverBlock(key, block, planned) => BlockStaysAnchored(t, key, block, planned, id);
    case DeliverHashFailure(key) => SameStaysAnchored(t, HashFailed(t, key), id);
    case RecomputeChanged(changed, planned) => RecomputeStaysAnchored(t, changed, planned, id);
    case ExpireStream(stream, planned) =>
      if stream in t.routes {
        ExpireStaysAnchored(t, stream, planned, id);
      }
    case _ =>
  }

  // ----- every step -----

  /** The torrent is anchored where it should be, or a poll under way will plan it again. */
  ghost predicate Planned(s: State, id: Torrent) {
    (s.phase == Idle ==> s.changed == {}) && (id in s.changed || Anchored(s.tables, id))
  }

  lemma EngineStepPlans(s: State, step: Step, id: Torrent)
    requires Sound(s) && Planned(s, id) && (step.RecomputeChanged? && step.id == id ==> step.planned)
    ensures Planned(EngineStep(s, step), id)
  {
    if Applies(s, step) {
      if Anchored(s.tables, id) {
        OperationStaysAnchored(s.tables, s.owners, step, id);
      } else if step.RecomputeChanged? && step.id == id {
        RecomputeAnchors(s.tables, id);
      }
    }
  }

  lemma ProcessPlans(s: State, needsData: bool, reading: Reading, id: Torrent)
    requires Sound(s) && Planned(s, id)
    ensures Planned(ProcessStep(s, needsData, reading), id)
  {
    if s.phase == Draining && s.batch != [] {
      var t, c := s.tables, s.batch[0];
      CommandsTail(s.handlers, t.waiters, s.batch);
      if id !in s.changed && id !in Touched(t, c) {
        OnlyTouchedChange(t, c, needsData, reading, id);
        SameStaysAnchored(t, ProcessCommand(t, c, needsData, reading), id);
      }
    }
  }

  lemma HandlerStepPlans(s: State, step: Step, id: Torrent)
    requires Planned(s, id)
    requires step.HandlerBegin? || step.HandlerRead? || step.HandlerCancel? || step.HandlerEnd?
    ensures Planned(Next(s, step), id)
  {
    var s' := Next(s, step);
    assert s'.phase == s.phase && s'.changed == s.changed;
    assert s'.tables == s.tables.(waiters := s'.tables.waiters);
    if Anchored(s.tables, id) {
      SameStaysAnchored(s.tables, s'.tables, id);
    }
  }

  lemma PollStepPlans(s: State, step: Step, id: Torrent)
    requires Planned(s, id) && (step.StartPoll? || step.PruneWaiters? || step.FinishPoll?)
    ensures Planned(Next(s, step), id)
  {
    if Anchored(s.tables, id) {
      SameStaysAnchored(s.tables, Prune(s.tables), id);
    }
  }

  /** Every step keeps the torrent anchored, or notes it to be planned, as long as its plans succeed. */
  lemma StepPlans(s: State, step: Step, id: Torrent)
    requires Sound(s) && Planned(s, id) && (step.RecomputeChanged? && step.id == id ==> step.planned)
    ensures Planned(Next(s, step), id)
  {
    if step.HandlerBegin? || step.HandlerRead? || step.HandlerCancel? || step.HandlerEnd? {
      HandlerStepPlans(s, step, id);
    } else if step.StartPoll? || step.PruneWaiters? || step.FinishPoll? {
      PollStepPlans(s, step, id);
    } else if step.Process? {
      ProcessPlans(s, step.needsData, step.reading, id);
    } else {
      EngineStepPlans(s, step, id);
    }
  }

  predicate PlansSucceed(steps: seq<Step>, id: Torrent) {
    forall i :: 0 <= i < |steps| && steps[i].RecomputeChanged? && steps[i].id == id ==> steps[i].planned
  }

  lemma {:induction false} RunPlans(s: State, steps: seq<Step>, id: Torrent)
    requires Sound(s) && Planned(s, id) && PlansSucceed(steps, id)
    ensures Planned(Run(s, steps), id)
    decreases |steps|
  {
    if steps != [] {
      StepKeepsSound(s, steps[0]);
      StepPlans(s, steps[0], id);
      assert forall i :: 0 <= i < |steps[1..]| ==> steps[1..][i] == steps[i + 1];
      RunPlans(Next(s, steps[0]), steps[1..], id);
    }
  }

  /**
   After every poll of every run: a torrent whose plans succeed, and which has a demand that lacks
   data, is anchored without prefetch at the newest such demand.
   */
  lemma AnchoredAfterEveryPoll(steps: seq<Step>, id: Torrent, d: nat)
    requires PlansSucceed(steps, id) && Run(INITIAL, steps).phase == Idle
    requires var t := Run(INITIAL, steps).tables;
      && ActiveFor(t, d, id) && t.demands[d].needsData
      && forall e: nat :: ActiveFor(t, e, id) && t.demands[e].needsData ==> e <= d
    ensures var t := Run(INITIAL, steps).tables;
      id in t.anchors && t.anchors[id] == StreamAnchor(t.demands[d].route, false)
  {
    RunPlans(INITIAL, steps, id);
    NewestIsFocus(Run(INITIAL, steps).tables, id, d);
  }

  lemma NewestIsFocus(t: Tables, id: Torrent, d: nat)
    requires ActiveFor(t, d, id) && t.demands[d].needsData
    requires forall e: nat :: ActiveFor(t, e, id) && t.demands[e].needsData ==> e <= d
    ensures IsFocus(t, id, d)
  {
    forall e | e in t.demands && t.demands[e].route.torrent == id && t.demands[e].needsData ensures e <= d {
      assert ActiveFor(t, e, id);
    }
  }

  /** Where some demand lacks data, one of them is the newest. */
  lemma {:induction false} FocusExists(t: Tables, id: Torrent, d: nat, later: set<nat>) returns (focus: nat)
    requires ActiveFor(t, d, id) && t.demands[d].needsData
    requires forall e :: e in later <==> e in t.demands && e > d
    ensures IsFocus(t, id, focus) && d <= focus
    decreases |later|
  {
    if e :| e in later && t.demands[e].route.torrent == id && t.demands[e].needsData {
      var rest := set x | x in later && x > e;
      assert rest <= later - {e};
      SmallerSet(rest, later, e);
      focus := FocusExists(t, id, e, rest);
    } else {
      focus := d;
    }
  }

  lemma SmallerSet(a: set<nat>, b: set<nat>, e: nat)
    requires a <= b - {e} && e in b
    ensures |a| < |b|
  {
    var c := b - {e} - a;
    assert b == a + c + {e} && a !! c && a !! {e} && c !! {e};
    assert |b| == |a| + |c| + 1;
  }

  /** The piece a waiter asked for was looked up and not there. */
  ghost predicate FoundMissing(h: seq<Lookup>, w: nat) {
    exists i :: 0 <= i < |h| && h[i].waiter == Some(w) && h[i].missing
  }

  /**
   After every poll of every run in which its torrent's plans succeed: a reader that waits for a piece found
   missing is planned for, with the torrent anchored without prefetch at its demand or a newer one.
   */
  lemma WaitingReaderIsPlanned(steps: seq<Step>, w: nat) returns (focus: nat)
    requires var s := Run(INITIAL, steps); s.phase == Idle && w < s.taken && w < |s.tables.waiters| && Open(s.tables.waiters[w])
    requires PlansSucceed(steps, Run(INITIAL, steps).tables.waiters[w].key.torrent)
    requires FoundMissing(Lookups(INITIAL, [], steps), w)
    ensures var t := Run(INITIAL, steps).tables;
      var id := t.waiters[w].key.torrent;
      && ActiveFor(t, focus, id) && t.demands[focus].needsData && t.waiters[w].demand <= focus
      && (forall e: nat :: ActiveFor(t, e, id) && t.demands[e].needsData ==> e <= focus)
      && id in t.anchors && t.anchors[id] == StreamAnchor(t.demands[focus].route, false)
  {
    var t := Run(INITIAL, steps).tables;
    WaitingReaderLacks(steps, w);
    var d, id := t.waiters[w].demand, t.waiters[w].key.torrent;
    focus := FocusExists(t, id, d, set e | e in t.demands && e > d);
    AnchoredAfterEveryPoll(steps, id, focus);
  }

  lemma WaitingReaderLacks(steps: seq<Step>, w: nat)
    requires var s := Run(INITIAL, steps); s.phase == Idle && w < s.taken && w < |s.tables.waiters| && Open(s.tables.waiters[w])
    requires FoundMissing(Lookups(INITIAL, [], steps), w)
    ensures var t := Run(INITIAL, steps).tables;
      ActiveFor(t, t.waiters[w].demand, t.waiters[w].key.torrent) && t.demands[t.waiters[w].demand].needsData
  {
    var s := Run(INITIAL, steps);
    RunKeepsHistory(INITIAL, [], steps);
    WaitingReaderLacksData(steps, w);
    WaitingIsLive(s, w);
    OneLookup(Lookups(INITIAL, [], steps), s.tables.waiters[w].demand, w, s.tables);
  }

  /** There is one lookup for a waiter. */
  lemma OneLookup(h: seq<Lookup>, d: nat, w: nat, t: Tables)
    requires InOrder(h) && d in t.demands && OwnLookupDecides(t, h, d, w)
    requires FoundMissing(h, w)
    ensures t.demands[d].needsData
  {
    var i: nat :| LastFor(h, d, i) && h[i].waiter == Some(w) && h[i].missing == t.demands[d].needsData;
    var j :| 0 <= j < |h| && h[j].waiter == Some(w) && h[j].missing;
    assert i == j;
  }
}
