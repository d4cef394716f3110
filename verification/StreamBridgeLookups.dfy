/** Which demands lack data: in every run, exactly those whose last lookup found the piece missing. */
module StreamBridgeLookups {
  import opened Common
  import opened StreamBridge
  import opened StreamBridgeSafety

  /** The engine looked for the piece a demand needs: when it began, or for one of its reads. */
  datatype Lookup = Lookup(demand: nat, waiter: Option<nat>, missing: bool)

  /** What processing a command looks up; a read that cannot be answered looks up nothing. */
  function LookedUp(t: Tables, c: Command, needsData: bool, reading: Reading): seq<Lookup> {
    match c
    case BeginDemand(d, r) => if RouteIsActive(t, r) then [Lookup(d, None, needsData)] else []
    case EndDemand(_) => []
    case ReadPiece(d, key, w) =>
      if d in t.demands && d !in t.cancelled && key.torrent !in t.revoked && !reading.Unusable?
      then [Lookup(d, Some(w), reading.Missing?)] else []
  }

  function Recorded(s: State, h: seq<Lookup>, step: Step): seq<Lookup> {
    if step.Process? && s.phase == Draining && s.batch != []
    then h + LookedUp(s.tables, s.batch[0], step.needsData, step.reading) else h
  }

  /** All lookups of a run, in order. */
  ghost function Lookups(s: State, h: seq<Lookup>, steps: seq<Step>): seq<Lookup>
    decreases |steps|
  {
    if steps == [] then h else Lookups(Next(s, steps[0]), Recorded(s, h, steps[0]), steps[1..])
  }

  /** The last lookup for the demand is the `i`th. */
  predicate LastFor(h: seq<Lookup>, d: nat, i: nat) {
    i < |h| && h[i].demand == d && forall j :: i < j < |h| ==> h[j].demand != d
  }

  /** The demand was looked up, and lacks data exactly if the last lookup found the piece missing. */
  ghost predicate NeedIsTrue(t: Tables, h: seq<Lookup>, d: nat)
    requires d in t.demands
  {
    exists i: nat :: LastFor(h, d, i) && h[i].missing == t.demands[d].needsData
  }

  ghost predicate NeedsAreTrue(t: Tables, h: seq<Lookup>) {
    forall d :: d in t.demands ==> NeedIsTrue(t, h, d)
  }

  lemma LastAppend(h: seq<Lookup>, x: Lookup, d: nat, i: nat)
    ensures x.demand == d ==> LastFor(h + [x], d, |h|)
    ensures x.demand != d && LastFor(h, d, i) ==> LastFor(h + [x], d, i) && (h + [x])[i] == h[i]
  {
  }

  lemma SameNeeds(t: Tables, t': Tables, h: seq<Lookup>)
    requires NeedsAreTrue(t, h)
    requires forall d :: d in t'.demands ==> d in t.demands && t'.demands[d].needsData == t.demands[d].needsData
    ensures NeedsAreTrue(t', h)
  {
    forall d | d in t'.demands ensures NeedIsTrue(t', h, d) {
      assert NeedIsTrue(t, h, d);
    }
  }

  /** One lookup decides about its demand and leaves the others alone. */
  lemma LookupDecides(t: Tables, t': Tables, h: seq<Lookup>, x: Lookup)
    requires NeedsAreTrue(t, h) && x.demand in t'.demands && t'.demands[x.demand].needsData == x.missing
    requires forall d :: d in t'.demands && d != x.demand ==> d in t.demands && t'.demands[d].needsData == t.demands[d].needsData
    ensures NeedsAreTrue(t', h + [x])
  {
    forall d | d in t'.demands ensures NeedIsTrue(t', h + [x], d) {
      if d == x.demand {
        LastAppend(h, x, d, 0);
      } else {
        assert NeedIsTrue(t, h, d);
        var i: nat :| LastFor(h, d, i) && h[i].missing == t.demands[d].needsData;
        LastAppend(h, x, d, i);
      }
    }
  }

  lemma ReadNeeds(t: Tables, c: Command, reading: Reading, h: seq<Lookup>)
    requires NeedsAreTrue(t, h) && c.ReadPiece?
    ensures NeedsAreTrue(ProcessRead(t, c, reading), h + LookedUp(t, c, false, reading))
  {
    var t', looked := ProcessRead(t, c, reading), LookedUp(t, c, false, reading);
    if looked == [] {
      assert h + looked == h;
      SameNeeds(t, t', h);
    } else {
      LookupDecides(t, t', h, looked[0]);
    }
  }

  lemma CommandNeeds(t: Tables, c: Command, needsData: bool, reading: Reading, h: seq<Lookup>)
    requires NeedsAreTrue(t, h)
    ensures NeedsAreTrue(ProcessCommand(t, c, needsData, reading), h + LookedUp(t, c, needsData, reading))
  {
    var t', looked := ProcessCommand(t, c, needsData, reading), LookedUp(t, c, needsData, reading);
    if c.ReadPiece? {
      ReadNeeds(t, c, reading, h);
    } else if looked == [] {
      assert h + looked == h;
      SameNeeds(t, t', h);
    } else {
      LookupDecides(t, t', h, looked[0]);
    }
  }

  /** Outside the command loop demands only end; whether they lack data is not touched. */
  lemma OperationNeeds(t: Tables, step: Step, d: nat)
    requires d in Operate(t, step).demands
    ensures d in t.demands && Operate(t, step).demands[d] == t.demands[d]
  {
    if step.Register? {
      assert Operate(t, step) == RegisterStream(t, step.route, step.nonEmpty, step.planned);
      RegisterNeeds(t, step.route, step.nonEmpty, step.planned, d);
    } else if step.Stop? {
      assert Operate(t, step) == StopStream(t, step.stream, step.planned);
      StopNeeds(t, step.stream, step.planned, d);
    } else if step.Remove? {
      assert Operate(t, step) == RemoveTorrent(t, step.torrent, step.planned);
      RemoveNeeds(t, step.torrent, step.planned, d);
    } else {
      OthersKeepDemands(t, step);
    }
  }

  lemma OthersKeepDemands(t: Tables, step: Step)
    requires !step.Register? && !step.Stop? && !step.Remove?
    ensures Operate(t, step).demands == t.demands
  {
  }

  lemma RegisterNeeds(t: Tables, r: Route, nonEmpty: bool, planned: bool, d: nat)
    requires d in RegisterStream(t, r, nonEmpty, planned).demands
    ensures d in t.demands && RegisterStream(t, r, nonEmpty, planned).demands[d] == t.demands[d]
  {
  }

  lemma StopNeeds(t: Tables, stream: Stream, planned: bool, d: nat)
    requires d in StopStream(t, stream, planned).demands
    ensures d in t.demands && StopStream(t, stream, planned).demands[d] == t.demands[d]
  {
  }

  lemma RemoveNeeds(t: Tables, id: Torrent, planned: bool, d: nat)
    requires d in RemoveTorrent(t, id, planned).demands
    ensures d in t.demands && RemoveTorrent(t, id, planned).demands[d] == t.demands[d]
  {
  }

  lemma StepNeeds(s: State, h: seq<Lookup>, step: Step)
    requires NeedsAreTrue(s.tables, h)
    ensures NeedsAreTrue(Next(s, step).tables, Recorded(s, h, step))
  {
    var s' := Next(s, step);
    if step.Process? {
      if s.phase == Draining && s.batch != [] {
        CommandNeeds(s.tables, s.batch[0], step.needsData, step.reading, h);
      }
    } else if step.HandlerBegin? || step.HandlerRead? || step.HandlerCancel? || step.HandlerEnd? {
      assert s'.tables.demands == s.tables.demands;
      SameNeeds(s.tables, s'.tables, h);
    } else if step.StartPoll? || step.PruneWaiters? || step.FinishPoll? {
      SameNeeds(s.tables, s'.tables, h);
    } else {
      EngineNeeds(s, step, h);
    }
  }

  lemma EngineNeeds(s: State, step: Step, h: seq<Lookup>)
    requires NeedsAreTrue(s.tables, h)
    ensures NeedsAreTrue(EngineStep(s, step).tables, h)
  {
    if Applies(s, step) {
      forall d | d in Operate(s.tables, step).demands
        ensures d in s.tables.demands && Operate(s.tables, step).demands[d] == s.tables.demands[d]
      {
        OperationNeeds(s.tables, step, d);
      }
      SameNeeds(s.tables, Operate(s.tables, step), h);
    }
  }

  lemma {:induction false} RunNeeds(s: State, h: seq<Lookup>, steps: seq<Step>)
    requires NeedsAreTrue(s.tables, h)
    ensures NeedsAreTrue(Run(s, steps).tables, Lookups(s, h, steps))
    decreases |steps|
  {
    if steps != [] {
      StepNeeds(s, h, steps[0]);
      RunNeeds(Next(s, steps[0]), Recorded(s, h, steps[0]), steps[1..]);
    }
  }

  /** In every state of every run a live demand lacks data exactly if its last lookup found the piece missing. */
  lemma LacksDataExactly(steps: seq<Step>, d: nat)
    requires d in Run(INITIAL, steps).tables.demands
    ensures NeedIsTrue(Run(INITIAL, steps).tables, Lookups(INITIAL, [], steps), d)
  {
    RunNeeds(INITIAL, [], steps);
  }

  // ----- the last lookup of a waiting reader is its own -----

  /** Lookups for reads are made in the order of the waiters, after the one that began the demand. */
  ghost predicate InOrder(h: seq<Lookup>) {
    && (forall i, j :: 0 <= i < j < |h| && h[i].waiter.Some? && h[j].waiter.Some? ==>
        h[i].waiter.value < h[j].waiter.value)
    && (forall i, j :: 0 <= i < j < |h| && h[i].demand == h[j].demand ==> h[j].waiter.Some?)
  }

  /** Every lookup is for a known demand, and for one of its waiters that was processed. */
  ghost predicate Attributed(h: seq<Lookup>, handlers: map<nat, Handler>, ws: seq<Waiter>, processed: nat) {
    && processed <= |ws|
    && (forall i :: 0 <= i < |h| ==> h[i].demand in handlers)
    && (forall i :: 0 <= i < |h| && h[i].waiter.Some? ==>
        h[i].waiter.value < processed && ws[h[i].waiter.value].demand == h[i].demand)
  }

  /** Whoever still waits after its command was processed was looked up. */
  ghost predicate WaitersLookedUp(h: seq<Lookup>, ws: seq<Waiter>, processed: nat)
    requires processed <= |ws|
  {
    forall w :: 0 <= w < processed && Open(ws[w]) ==> exists i :: 0 <= i < |h| && h[i].waiter == Some(w)
  }

  /** No waiter of a demand is newer than the one its handler holds. */
  ghost predicate CurrentIsLatest(handlers: map<nat, Handler>, ws: seq<Waiter>) {
    forall x :: 0 <= x < |ws| ==>
      && ws[x].demand in handlers && handlers[ws[x].demand].current.Some?
      && x <= handlers[ws[x].demand].current.value
  }

  /** The command that begins a demand is the first of the demand, and comes before all its lookups. */
  ghost predicate BeginsFirst(q: seq<Command>, h: seq<Lookup>) {
    && (forall i, j :: 0 <= j < i < |q| && q[i].BeginDemand? ==> q[j].demand != q[i].demand)
    && (forall i, k :: 0 <= i < |q| && q[i].BeginDemand? && 0 <= k < |h| ==> h[k].demand != q[i].demand)
  }

  ghost predicate HistorySound(s: State, h: seq<Lookup>) {
    && InOrder(h) && Attributed(h, s.handlers, s.tables.waiters, s.processed)
    && WaitersLookedUp(h, s.tables.waiters, s.processed)
    && CurrentIsLatest(s.handlers, s.tables.waiters)
    && BeginsFirst(s.batch + s.commands, h)
  }

  /** Steps that leave handlers, queue and history alone only ever close waiters. */
  lemma HistoryKept(s: State, s': State, h: seq<Lookup>)
    requires HistorySound(s, h) && s'.handlers == s.handlers && s'.processed == s.processed
    requires s'.batch + s'.commands == s.batch + s.commands
    requires WaitersEvolve(s.tables.waiters, s'.tables.waiters) && |s'.tables.waiters| == |s.tables.waiters|
    ensures HistorySound(s', h)
  {
    assert forall w :: 0 <= w < s.processed && Open(s'.tables.waiters[w]) ==> Open(s.tables.waiters[w]);
  }

  lemma BeginsAppend(q: seq<Command>, c: Command, h: seq<Lookup>)
    requires BeginsFirst(q, h)
    requires c.BeginDemand? ==> (forall j :: 0 <= j < |q| ==> q[j].demand != c.demand) && forall k :: 0 <= k < |h| ==> h[k].demand != c.demand
    ensures BeginsFirst(q + [c], h)
  {
  }

  lemma BeginKeepsHistory(s: State, h: seq<Lookup>, stream: Stream)
    requires Sound(s) && HistorySound(s, h)
    ensures HistorySound(BeginStep(s, stream), h)
  {
    if stream in s.owners && |s.commands| < MAXIMUM_HTTP_COMMANDS {
      var s' := BeginStep(s, stream);
      var c := BeginDemand(s.nextDemand, Route(stream, s.owners[stream]));
      var q := s.batch + s.commands;
      assert s.nextDemand in s.handlers ==> HandlerSound(s, s.nextDemand, s.handlers[s.nextDemand]);
      forall j | 0 <= j < |q| ensures q[j].demand != c.demand {
        assert if j < |s.batch| then CommandSound(s.handlers, s.tables.waiters, s.batch[j])
               else CommandSound(s.handlers, s.tables.waiters, s.commands[j - |s.batch|]);
      }
      BeginsAppend(q, c, h);
      assert s'.batch + s'.commands == q + [c];
    }
  }

  lemma EndKeepsHistory(s: State, h: seq<Lookup>, d: nat)
    requires HistorySound(s, h)
    ensures HistorySound(EndStep(s, d), h)
  {
    if Unoccupied(s, d) {
      BeginsAppend(s.batch + s.commands, EndDemand(d), h);
      assert s.batch + (s.commands + [EndDemand(d)]) == s.batch + s.commands + [EndDemand(d)];
    }
  }

  lemma ReadKeepsHistory(s: State, h: seq<Lookup>, d: nat, piece: nat)
    requires HistorySound(s, h)
    ensures HistorySound(ReadStep(s, d, piece), h)
  {
    if Unoccupied(s, d) && |s.commands| < MAXIMUM_HTTP_COMMANDS {
      var s' := ReadStep(s, d, piece);
      var c := ReadPiece(d, Key(s.handlers[d].route.torrent, piece), |s.tables.waiters|);
      BeginsAppend(s.batch + s.commands, c, h);
      assert s'.batch + s'.commands == s.batch + s.commands + [c];
      assert forall w :: 0 <= w < |s.tables.waiters| ==> s'.tables.waiters[w] == s.tables.waiters[w];
    }
  }

  lemma BeginsTail(q: seq<Command>, h: seq<Lookup>, looked: seq<Lookup>)
    requires q != [] && BeginsFirst(q, h) && forall k :: 0 <= k < |looked| ==> looked[k].demand == q[0].demand
    ensures BeginsFirst(q[1..], h + looked)
  {
    var rest, more := q[1..], h + looked;
    forall i, j | 0 <= j < i < |rest| && rest[i].BeginDemand? ensures rest[j].demand != rest[i].demand {
      assert q[i + 1] == rest[i] && q[j + 1] == rest[j];
    }
    forall i, k | 0 <= i < |rest| && rest[i].BeginDemand? && 0 <= k < |more| ensures more[k].demand != rest[i].demand {
      assert q[i + 1] == rest[i] && q[0].demand != q[i + 1].demand;
      if k >= |h| {
        assert more[k] == looked[k - |h|];
      }
    }
  }

  /** A lookup for the waiter whose turn it is, or for a demand that begins. */
  predicate NextLookup(x: Lookup, h: seq<Lookup>, handlers: map<nat, Handler>, ws: seq<Waiter>, processed: nat) {
    && x.demand in handlers
    && (x.waiter.Some? ==> x.waiter.value == processed < |ws| && ws[processed].demand == x.demand)
    && (x.waiter.None? ==> forall k :: 0 <= k < |h| ==> h[k].demand != x.demand)
  }

  lemma LookupKeepsOrder(x: Lookup, h: seq<Lookup>, handlers: map<nat, Handler>, ws: seq<Waiter>, processed: nat)
    requires InOrder(h) && Attributed(h, handlers, ws, processed) && NextLookup(x, h, handlers, ws, processed)
    ensures InOrder(h + [x])
    ensures Attributed(h + [x], handlers, ws, if x.waiter.Some? then processed + 1 else processed)
  {
    var more := h + [x];
    assert forall i :: 0 <= i < |h| ==> more[i] == h[i];
  }

  lemma MoreLookups(h: seq<Lookup>, looked: seq<Lookup>, ws: seq<Waiter>, ws': seq<Waiter>, processed: nat)
    requires processed <= |ws| && WaitersLookedUp(h, ws, processed) && WaitersEvolve(ws, ws')
    ensures WaitersLookedUp(h + looked, ws', processed)
  {
    forall w | 0 <= w < processed && Open(ws'[w]) ensures exists i :: 0 <= i < |h + looked| && (h + looked)[i].waiter == Some(w) {
      assert Open(ws[w]);
      var i :| 0 <= i < |h| && h[i].waiter == Some(w);
      assert (h + looked)[i] == h[i];
    }
  }

  /** A read that leaves its waiter waiting has been looked up. */
  lemma ReadLooksUp(t: Tables, c: Command, reading: Reading)
    requires c.ReadPiece? && c.waiter < |t.waiters|
    ensures var t' := ProcessRead(t, c, reading);
      |t'.waiters| == |t.waiters| && (Open(t'.waiters[c.waiter]) ==> LookedUp(t, c, false, reading) != [])
  {
  }

  lemma ReadTurn(s: State, h: seq<Lookup>, needsData: bool, reading: Reading)
    requires Sound(s) && HistorySound(s, h) && s.phase == Draining && s.batch != [] && s.batch[0].ReadPiece?
    ensures HistorySound(ProcessStep(s, needsData, reading), h + LookedUp(s.tables, s.batch[0], needsData, reading))
  {
    var t, c := s.tables, s.batch[0];
    var s', looked := ProcessStep(s, needsData, reading), LookedUp(t, c, needsData, reading);
    CommandsTail(s.handlers, t.waiters, s.batch);
    assert c.waiter == s.processed;
    ProcessedWaiters(t, c, needsData, reading);
    ReadLooksUp(t, c, reading);
    assert s'.tables == ProcessRead(t, c, reading);
    TurnKeepsHistory(s, s', h, looked);
  }

  lemma TurnKeepsHistory(s: State, s': State, h: seq<Lookup>, looked: seq<Lookup>)
    requires HistorySound(s, h) && s.batch != [] && s.batch[0].ReadPiece? && s.processed < |s.tables.waiters|
    requires s'.handlers == s.handlers && s'.processed == s.processed + 1 && s'.batch == s.batch[1..] && s'.commands == s.commands
    requires WaitersEvolve(s.tables.waiters, s'.tables.waiters) && |s'.tables.waiters| == |s.tables.waiters|
    requires |looked| <= 1 && (Open(s'.tables.waiters[s.processed]) ==> looked != [])
    requires forall x :: x in looked ==>
      && x.demand == s.batch[0].demand && x.waiter == Some(s.processed)
      && NextLookup(x, h, s.handlers, s.tables.waiters, s.processed)
    ensures HistorySound(s', h + looked)
  {
    var ws' := s'.tables.waiters;
    assert s.batch + s.commands == [s.batch[0]] + (s'.batch + s'.commands);
    assert (s.batch + s.commands)[1..] == s'.batch + s'.commands;
    BeginsTail(s.batch + s.commands, h, looked);
    MoreLookups(h, looked, s.tables.waiters, ws', s.processed);
    if looked == [] {
      assert h + looked == h;
    } else {
      assert looked == [looked[0]] && looked[0] in looked;
      LookupKeepsOrder(looked[0], h, s.handlers, s.tables.waiters, s.processed);
      assert (h + looked)[|h|].waiter == Some(s.processed);
    }
  }

  lemma DemandTurn(s: State, h: seq<Lookup>, needsData: bool, reading: Reading)
    requires Sound(s) && HistorySound(s, h) && s.phase == Draining && s.batch != [] && !s.batch[0].ReadPiece?
    ensures HistorySound(ProcessStep(s, needsData, reading), h + LookedUp(s.tables, s.batch[0], needsData, reading))
  {
    var t, c := s.tables, s.batch[0];
    var s', looked := ProcessStep(s, needsData, reading), LookedUp(t, c, needsData, reading);
    CommandsTail(s.handlers, t.waiters, s.batch);
    assert s'.tables.waiters == t.waiters;
    assert (s.batch + s.commands)[0] == c && (s.batch + s.commands)[1..] == s'.batch + s'.commands;
    BeginsTail(s.batch + s.commands, h, looked);
    MoreLookups(h, looked, t.waiters, t.waiters, s.processed);
    if looked == [] {
      assert h + looked == h;
    } else {
      LookupKeepsOrder(looked[0], h, s.handlers, t.waiters, s.processed);
    }
  }

  lemma CancelKeepsHistory(s: State, h: seq<Lookup>, d: nat)
    requires HistorySound(s, h)
    ensures HistorySound(CancelStep(s, d), h)
  {
    HistoryKept(s, CancelStep(s, d), h);
  }

  lemma HandlerKeepsHistory(s: State, h: seq<Lookup>, step: Step)
    requires Sound(s) && HistorySound(s, h)
    requires step.HandlerBegin? || step.HandlerRead? || step.HandlerCancel? || step.HandlerEnd?
    ensures HistorySound(Next(s, step), h)
  {
    match step
    case HandlerBegin(stream) => BeginKeepsHistory(s, h, stream);
    case HandlerRead(d, piece) => ReadKeepsHistory(s, h, d, piece);
    case HandlerCancel(d) => CancelKeepsHistory(s, h, d);
    case HandlerEnd(d) => EndKeepsHistory(s, h, d);
  }

  lemma PollKeepsHistory(s: State, h: seq<Lookup>, step: Step)
    requires Sound(s) && HistorySound(s, h) && (step.StartPoll? || step.PruneWaiters? || step.FinishPoll?)
    ensures HistorySound(Next(s, step), h)
  {
    TakenBound(s);
    PollStepEvolves(s, step);
    var s' := Next(s, step);
    assert s'.batch + s'.commands == s.batch + s.commands;
    HistoryKept(s, s', h);
  }

  lemma EngineKeepsHistory(s: State, h: seq<Lookup>, step: Step)
    requires Sound(s) && HistorySound(s, h)
    ensures HistorySound(EngineStep(s, step), h)
  {
    if Applies(s, step) {
      OperationsTidy(s.tables, s.owners, step, s.processed);
      EngineStepEvolves(s, step);
      HistoryKept(s, EngineStep(s, step), h);
    }
  }

  lemma StepKeepsHistory(s: State, h: seq<Lookup>, step: Step)
    requires Sound(s) && HistorySound(s, h)
    ensures HistorySound(Next(s, step), Recorded(s, h, step))
  {
    if step.HandlerBegin? || step.HandlerRead? || step.HandlerCancel? || step.HandlerEnd? {
      HandlerKeepsHistory(s, h, step);
    } else if step.StartPoll? || step.PruneWaiters? || step.FinishPoll? {
      PollKeepsHistory(s, h, step);
    } else if step.Process? {
      if s.phase == Draining && s.batch != [] {
        if s.batch[0].ReadPiece? {
          ReadTurn(s, h, step.needsData, step.reading);
        } else {
          DemandTurn(s, h, step.needsData, step.reading);
        }
      }
    } else {
      EngineKeepsHistory(s, h, step);
    }
  }

  lemma {:induction false} RunKeepsHistory(s: State, h: seq<Lookup>, steps: seq<Step>)
    requires Sound(s) && HistorySound(s, h)
    ensures Sound(Run(s, steps)) && HistorySound(Run(s, steps), Lookups(s, h, steps))
    decreases |steps|
  {
    if steps != [] {
      StepKeepsSound(s, steps[0]);
      StepKeepsHistory(s, h, steps[0]);
      RunKeepsHistory(Next(s, steps[0]), Recorded(s, h, steps[0]), steps[1..]);
    }
  }

  /** The last lookup of a reader that still waits is the one for its waiter. */
  lemma LastIsOwn(s: State, h: seq<Lookup>, w: nat, i: nat)
    requires Sound(s) && HistorySound(s, h) && w < s.processed && Open(s.tables.waiters[w])
    requires LastFor(h, s.tables.waiters[w].demand, i)
    ensures h[i].waiter == Some(w)
  {
    var d := s.tables.waiters[w].demand;
    var k :| 0 <= k < |h| && h[k].waiter == Some(w);
    assert h[k].demand == d && k <= i;
    assert h[i].waiter.Some?;
    var x := h[i].waiter.value;
    assert HeldByHandler(s.handlers, s.tables.waiters, w);
    assert x <= s.handlers[d].current.value == w;
  }

  /** The last lookup for the demand is the one for waiter `w`, and says whether the demand lacks data. */
  ghost predicate OwnLookupDecides(t: Tables, h: seq<Lookup>, d: nat, w: nat)
    requires d in t.demands
  {
    exists i: nat :: LastFor(h, d, i) && h[i].waiter == Some(w) && h[i].missing == t.demands[d].needsData
  }

  /**
   After every poll of every run a reader that still waits for a piece asked for before the poll belongs to
   a live demand, and that demand lacks data exactly if the lookup for this very read found the piece missing.
   */
  lemma WaitingReaderLacksData(steps: seq<Step>, w: nat)
    requires var s := Run(INITIAL, steps); s.phase == Idle && w < s.taken && w < |s.tables.waiters| && Open(s.tables.waiters[w])
    ensures var t, h := Run(INITIAL, steps).tables, Lookups(INITIAL, [], steps);
      var d := t.waiters[w].demand;
      d in t.demands && w in Registered(t) && OwnLookupDecides(t, h, d, w)
  {
    var s, h := Run(INITIAL, steps), Lookups(INITIAL, [], steps);
    RunKeepsHistory(INITIAL, [], steps);
    WaitingIsLive(s, w);
    var d := s.tables.waiters[w].demand;
    LacksDataExactly(steps, d);
    var i: nat :| LastFor(h, d, i) && h[i].missing == s.tables.demands[d].needsData;
    assert s.processed == s.taken;
    LastIsOwn(s, h, w, i);
  }
}
