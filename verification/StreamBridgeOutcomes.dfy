/** Which event completes a waiting reader, and with what outcome. */
module StreamBridgeOutcomes {
  import opened Common
  import opened StreamBridge
  import opened StreamBridgeSafety

  predicate Answerable(t: Tables, c: Command)
    requires c.ReadPiece?
  {
    c.demand in t.demands && c.demand !in t.cancelled && c.key.torrent !in t.revoked
  }

  /** Processing its own read command answers the waiter at once. */
  predicate CauseInQueue(t: Tables, c: Command, reading: Reading, w: nat, outcome: Outcome) {
    && c.ReadPiece? && c.waiter == w
    && if Answerable(t, c) && !reading.Unusable? then reading.Cached? && outcome == Data(c.key) else outcome == Failed
  }

  predicate Serves(t: Tables, w: nat, stream: Stream)
    requires w < |t.waiters|
  {
    t.waiters[w].demand in t.demands && t.demands[t.waiters[w].demand].route.stream == stream
  }

  /** The delivery of its piece, or the end of its stream or torrent, completes a registered waiter. */
  predicate CauseOutside(t: Tables, step: Step, w: nat, outcome: Outcome)
    requires w < |t.waiters|
  {
    && w in Registered(t)
    && match step
       case DeliverPiece(key, succeeded) => t.waiters[w].key == key && outcome == if succeeded then Data(key) else Failed
       case Stop(stream, _) => outcome == Failed && Serves(t, w, stream)
       case Remove(id, _) => outcome == Failed && t.waiters[w].key.torrent == id
       case Register(r, _, _) => outcome == Failed && ActiveFor(t, t.waiters[w].demand, r.torrent)
       case _ => false
  }

  /** The engine may carry out the step now. */
  predicate Enabled(s: State, step: Step) {
    s.phase == Idle && (step.Register? ==> step.route.stream !in s.owners)
  }

  predicate Cause(s: State, step: Step, w: nat, outcome: Outcome)
    requires w < |s.tables.waiters|
  {
    if step.Process? then
      s.phase == Draining && s.batch != [] && CauseInQueue(s.tables, s.batch[0], step.reading, w, outcome)
    else Enabled(s, step) && CauseOutside(s.tables, step, w, outcome)
  }

  lemma CommandOutcome(t: Tables, c: Command, needsData: bool, reading: Reading, w: nat, outcome: Outcome)
    requires w < |t.waiters| && Open(t.waiters[w])
    ensures |ProcessCommand(t, c, needsData, reading).waiters| == |t.waiters|
    ensures ProcessCommand(t, c, needsData, reading).waiters[w].outcome == Some(outcome) <==>
      CauseInQueue(t, c, reading, w, outcome)
  {
    match c
    case BeginDemand(_, _) =>
    case EndDemand(_) =>
    case ReadPiece(_, _, _) => ReadOutcome(t, c, reading, w, outcome);
  }

  lemma ReadOutcome(t: Tables, c: Command, reading: Reading, w: nat, outcome: Outcome)
    requires c.ReadPiece? && w < |t.waiters| && Open(t.waiters[w])
    ensures |ProcessRead(t, c, reading).waiters| == |t.waiters|
    ensures ProcessRead(t, c, reading).waiters[w].outcome == Some(outcome) <==> CauseInQueue(t, c, reading, w, outcome)
  {
    if !Answerable(t, c) || reading.Unusable? {
      assert ProcessRead(t, c, reading).waiters == CompleteOne(t.waiters, c.waiter, Failed);
    } else if reading.Cached? {
      assert ProcessRead(t, c, reading).waiters == CompleteOne(t.waiters, c.waiter, Data(c.key));
    } else {
      assert ProcessRead(t, c, reading).waiters == t.waiters;
    }
  }

  lemma StoppedOutcome(t: Tables, streams: set<Stream>, w: nat, outcome: Outcome)
    requires w < |t.waiters| && Open(t.waiters[w])
    ensures |StopStreams(t, streams).waiters| == |t.waiters|
    ensures StopStreams(t, streams).waiters[w].outcome == Some(outcome) <==>
      && outcome == Failed && w in Registered(t)
      && t.waiters[w].demand in t.demands && t.demands[t.waiters[w].demand].route.stream in streams
  {
    var u := t.(routes := t.routes - streams,
                anchors := map id | id in t.anchors && t.anchors[id].route.stream !in streams :: t.anchors[id]);
    assert Registered(u) == Registered(t);
  }

  lemma SameWaiters(t: Tables, id: Torrent, planned: bool)
    ensures Recompute(t, id, planned).waiters == t.waiters
  {
  }

  lemma StopOutcome(t: Tables, stream: Stream, planned: bool, w: nat, outcome: Outcome)
    requires w < |t.waiters| && Open(t.waiters[w])
    ensures |StopStream(t, stream, planned).waiters| == |t.waiters|
    ensures StopStream(t, stream, planned).waiters[w].outcome == Some(outcome) <==>
      && outcome == Failed && w in Registered(t)
      && t.waiters[w].demand in t.demands && t.demands[t.waiters[w].demand].route.stream == stream
  {
    StoppedOutcome(t, {stream}, w, outcome);
    if stream in t.routes {
      SameWaiters(StopStreams(t, {stream}), t.routes[stream], planned);
    }
  }

  lemma RegisterOutcome(t: Tables, r: Route, nonEmpty: bool, planned: bool, w: nat, outcome: Outcome)
    requires DemandsSound(t) && w < |t.waiters| && Open(t.waiters[w])
    ensures |RegisterStream(t, r, nonEmpty, planned).waiters| == |t.waiters|
    ensures RegisterStream(t, r, nonEmpty, planned).waiters[w].outcome == Some(outcome) <==>
      && outcome == Failed && w in Registered(t)
      && t.waiters[w].demand in t.demands && t.demands[t.waiters[w].demand].route.torrent == r.torrent
  {
    var previous := set s | s in t.routes && t.routes[s] == r.torrent;
    StoppedOutcome(t, previous, w, outcome);
    assert RegisterStream(t, r, nonEmpty, planned).waiters == StopStreams(t, previous).waiters;
  }

  lemma RemoveOutcome(t: Tables, id: Torrent, planned: bool, w: nat, outcome: Outcome)
    requires w < |t.waiters| && Open(t.waiters[w])
    ensures |RemoveTorrent(t, id, planned).waiters| == |t.waiters|
    ensures RemoveTorrent(t, id, planned).waiters[w].outcome == Some(outcome) <==>
      outcome == Failed && w in Registered(t) && t.waiters[w].key.torrent == id
  {
    SameWaiters(Cleared(t, id), id, planned);
  }

  lemma DeliveryOutcome(t: Tables, key: Key, given: Outcome, w: nat, outcome: Outcome)
    requires w < |t.waiters| && Open(t.waiters[w])
    ensures FinishPiece(t, key, given).waiters[w].outcome == Some(outcome) <==>
      outcome == given && w in Registered(t) && t.waiters[w].key == key
  {
  }

  lemma EndingOutcome(t: Tables, step: Step, w: nat, outcome: Outcome)
    requires w < |t.waiters| && Open(t.waiters[w]) && (step.Stop? || step.Remove?)
    ensures |Operate(t, step).waiters| == |t.waiters|
    ensures Operate(t, step).waiters[w].outcome == Some(outcome) <==> CauseOutside(t, step, w, outcome)
  {
    if step.Stop? {
      assert Operate(t, step) == StopStream(t, step.stream, step.planned);
      StopOutcome(t, step.stream, step.planned, w, outcome);
    } else {
      assert Operate(t, step) == RemoveTorrent(t, step.torrent, step.planned);
      RemoveOutcome(t, step.torrent, step.planned, w, outcome);
    }
  }

  lemma OperationOutcome(t: Tables, step: Step, w: nat, outcome: Outcome)
    requires DemandsSound(t) && w < |t.waiters| && Open(t.waiters[w])
    requires step.DeliverPiece? || step.Stop? || step.Remove? || step.Register?
    ensures |Operate(t, step).waiters| == |t.waiters|
    ensures Operate(t, step).waiters[w].outcome == Some(outcome) <==> CauseOutside(t, step, w, outcome)
  {
    if step.DeliverPiece? {
      var given := if step.succeeded then Data(step.key) else Failed;
      assert Operate(t, step) == FinishPiece(t, step.key, given);
      DeliveryOutcome(t, step.key, given, w, outcome);
    } else if step.Register? {
      assert Operate(t, step) == RegisterStream(t, step.route, step.nonEmpty, step.planned);
      RegisterOutcome(t, step.route, step.nonEmpty, step.planned, w, outcome);
    } else {
      EndingOutcome(t, step, w, outcome);
    }
  }

  lemma TablesAfterOperation(s: State, step: Step)
    requires step.DeliverPiece? || step.Stop? || step.Remove? || step.Register?
    ensures Next(s, step).tables == if Enabled(s, step) then Operate(s.tables, step) else s.tables
  {
  }

  lemma TablesAfterProcess(s: State, needsData: bool, reading: Reading)
    ensures Next(s, Process(needsData, reading)).tables ==
      if s.phase == Draining && s.batch != [] then ProcessCommand(s.tables, s.batch[0], needsData, reading) else s.tables
  {
  }

  lemma QuietEngineOutcome(s: State, step: Step)
    requires step.RecomputeChanged? || step.ExpireStream? || step.DeliverBlock? || step.DeliverHashFailure?
    ensures EngineStep(s, step).tables.waiters == s.tables.waiters
  {
    match step
    case RecomputeChanged(id, planned) => SameWaiters(s.tables, id, planned);
    case ExpireStream(stream, planned) =>
      if stream in s.tables.routes {
        SameWaiters(Expire(s.tables, stream), s.tables.routes[stream], planned);
      }
    case DeliverBlock(key, block, planned) => SameWaiters(BlockFinished(s.tables, key, block), key.torrent, planned);
    case DeliverHashFailure(_) =>
  }

  lemma QuietOutcome(s: State, step: Step, w: nat)
    requires w < |s.tables.waiters| && Open(s.tables.waiters[w])
    requires !(step.Process? || step.DeliverPiece? || step.Stop? || step.Remove? || step.Register?)
    ensures w < |Next(s, step).tables.waiters| && Next(s, step).tables.waiters[w].outcome == None
  {
    match step
    case HandlerBegin(_) =>
    case HandlerRead(_, _) =>
    case HandlerCancel(_) =>
    case HandlerEnd(_) =>
    case StartPoll =>
    case PruneWaiters =>
    case FinishPoll =>
    case _ => QuietEngineOutcome(s, step);
  }

  lemma OutcomeOfStep(s: State, step: Step, w: nat, outcome: Outcome)
    requires DemandsSound(s.tables) && w < |s.tables.waiters| && Open(s.tables.waiters[w])
    ensures w < |Next(s, step).tables.waiters|
    ensures Next(s, step).tables.waiters[w].outcome == Some(outcome) <==> Cause(s, step, w, outcome)
  {
    if step.Process? {
      TablesAfterProcess(s, step.needsData, step.reading);
      if s.phase == Draining && s.batch != [] {
        CommandOutcome(s.tables, s.batch[0], step.needsData, step.reading, w, outcome);
      }
    } else if step.DeliverPiece? || step.Stop? || step.Remove? || step.Register? {
      TablesAfterOperation(s, step);
      OperationOutcome(s.tables, step, w, outcome);
    } else {
      QuietOutcome(s, step, w);
    }
  }

  /**
   In every run a waiting reader is completed exactly by its own read command, the delivery of
   its piece, or the end of its stream or torrent, and with exactly the outcome that event calls for.
   */
  lemma CompletedExactlyWhen(steps: seq<Step>, step: Step, w: nat, outcome: Outcome)
    requires w < |Run(INITIAL, steps).tables.waiters| && Open(Run(INITIAL, steps).tables.waiters[w])
    ensures var s := Run(INITIAL, steps);
      w < |Next(s, step).tables.waiters| &&
      (Next(s, step).tables.waiters[w].outcome == Some(outcome) <==> Cause(s, step, w, outcome))
  {
    RunsAreSound(INITIAL, steps);
    OutcomeOfStep(Run(INITIAL, steps), step, w, outcome);
  }

  // ----- the record of finished blocks -----

  /** The blocks of a torrent on disk that no failed hash has discarded. */
  type Disk = set<(Key, nat)>

  function Reported(s: State, disk: Disk, step: Step): Disk {
    if s.phase != Idle then disk
    else if step.DeliverBlock? then disk + {(step.key, step.block)}
    else if step.DeliverHashFailure? then set x | x in disk && x.0 != step.key
    else disk
  }

  /** The blocks found when a piece is first asked for are those on disk. */
  predicate Truthful(s: State, disk: Disk, step: Step) {
    step.Process? && s.batch != [] && s.batch[0].ReadPiece? && step.reading.Missing? ==>
      forall b :: 0 <= b < |step.reading.blocks| ==> (step.reading.blocks[b] <==> (s.batch[0].key, b) in disk)
  }

  /** The record of a piece somebody waits for says exactly which of its blocks are on disk. */
  ghost predicate Exact(partial: map<Key, seq<bool>>, disk: Disk) {
    forall k, b :: k in partial && 0 <= b < |partial[k]| ==> (partial[k][b] <==> (k, b) in disk)
  }

  ghost predicate Fewer(partial: map<Key, seq<bool>>, partial': map<Key, seq<bool>>) {
    forall k :: k in partial' ==> k in partial && partial'[k] == partial[k]
  }

  lemma FewerStaysExact(partial: map<Key, seq<bool>>, partial': map<Key, seq<bool>>, disk: Disk)
    requires Exact(partial, disk) && Fewer(partial, partial')
    ensures Exact(partial', disk)
  {
  }

  lemma BlockStaysExact(t: Tables, disk: Disk, key: Key, block: nat)
    requires Exact(t.partial, disk)
    ensures Exact(BlockFinished(t, key, block).partial, disk + {(key, block)})
  {
  }

  lemma HashFailureStaysExact(t: Tables, disk: Disk, key: Key)
    requires Exact(t.partial, disk)
    ensures Exact(HashFailed(t, key).partial, set x | x in disk && x.0 != key)
  {
  }

  lemma CommandPartial(t: Tables, c: Command, needsData: bool, reading: Reading)
    ensures var p := ProcessCommand(t, c, needsData, reading).partial;
      p == t.partial || (c.ReadPiece? && reading.Missing? && p == t.partial[c.key := reading.blocks])
  {
  }

  lemma AddedStaysExact(partial: map<Key, seq<bool>>, key: Key, blocks: seq<bool>, disk: Disk)
    requires Exact(partial, disk) && forall b :: 0 <= b < |blocks| ==> (blocks[b] <==> (key, b) in disk)
    ensures Exact(partial[key := blocks], disk)
  {
  }

  lemma ProcessStaysExact(s: State, disk: Disk, needsData: bool, reading: Reading)
    requires Exact(s.tables.partial, disk) && Truthful(s, disk, Process(needsData, reading))
    ensures Exact(ProcessStep(s, needsData, reading).tables.partial, disk)
  {
    if s.phase == Draining && s.batch != [] {
      var c := s.batch[0];
      CommandPartial(s.tables, c, needsData, reading);
      if c.ReadPiece? && reading.Missing? {
        AddedStaysExact(s.tables.partial, c.key, reading.blocks, disk);
      }
    }
  }

  lemma SamePartial(t: Tables, id: Torrent, planned: bool)
    ensures Recompute(t, id, planned).partial == t.partial
  {
  }

  lemma StopLeavesFewer(t: Tables, streams: set<Stream>)
    ensures Fewer(t.partial, StopStreams(t, streams).partial)
  {
  }

  lemma StreamsLeaveFewer(t: Tables, step: Step)
    requires step.Register? || step.Stop? || step.Remove?
    ensures Fewer(t.partial, Operate(t, step).partial)
  {
    match step
    case Register(r, nonEmpty, planned) =>
      var previous := set s | s in t.routes && t.routes[s] == r.torrent;
      StopLeavesFewer(t, previous);
      RegisterPartial(t, r, nonEmpty, planned);
    case Stop(stream, planned) =>
      StopLeavesFewer(t, {stream});
      if stream in t.routes {
        SamePartial(StopStreams(t, {stream}), t.routes[stream], planned);
      }
    case Remove(id, planned) => SamePartial(Cleared(t, id), id, planned);
  }

  lemma RegisterPartial(t: Tables, r: Route, nonEmpty: bool, planned: bool)
    ensures RegisterStream(t, r, nonEmpty, planned).partial ==
      StopStreams(t, set s | s in t.routes && t.routes[s] == r.torrent).partial
  {
  }

  lemma OperationLeavesFewer(t: Tables, step: Step)
    requires !step.DeliverBlock? && !step.DeliverHashFailure?
    ensures Fewer(t.partial, Operate(t, step).partial)
  {
    if step.Register? || step.Stop? || step.Remove? {
      StreamsLeaveFewer(t, step);
    } else if step.RecomputeChanged? {
      SamePartial(t, step.id, step.planned);
    } else if step.ExpireStream? && step.stream in t.routes {
      SamePartial(Expire(t, step.stream), t.routes[step.stream], step.planned);
    }
  }

  lemma EngineStaysExact(s: State, disk: Disk, step: Step)
    requires Exact(s.tables.partial, disk)
    ensures Exact(EngineStep(s, step).tables.partial, Reported(s, disk, step))
  {
    if step.DeliverBlock? {
      BlockStaysExact(s.tables, disk, step.key, step.block);
      SamePartial(BlockFinished(s.tables, step.key, step.block), step.key.torrent, step.planned);
    } else if step.DeliverHashFailure? {
      HashFailureStaysExact(s.tables, disk, step.key);
    } else {
      OperationLeavesFewer(s.tables, step);
      FewerStaysExact(s.tables.partial, Operate(s.tables, step).partial, disk);
    }
  }

  lemma HandlerStepStaysExact(s: State, disk: Disk, step: Step)
    requires step.HandlerBegin? || step.HandlerRead? || step.HandlerCancel? || step.HandlerEnd?
    ensures Next(s, step).tables.partial == s.tables.partial && Reported(s, disk, step) == disk
  {
  }

  lemma PollStepStaysExact(s: State, disk: Disk, step: Step)
    requires Exact(s.tables.partial, disk) && (step.StartPoll? || step.PruneWaiters? || step.FinishPoll?)
    ensures Exact(Next(s, step).tables.partial, disk) && Reported(s, disk, step) == disk
  {
    assert Fewer(s.tables.partial, Prune(s.tables).partial);
    FewerStaysExact(s.tables.partial, Prune(s.tables).partial, disk);
  }

  lemma StepStaysExact(s: State, disk: Disk, step: Step)
    requires Exact(s.tables.partial, disk) && Truthful(s, disk, step)
    ensures Exact(Next(s, step).tables.partial, Reported(s, disk, step))
  {
    if step.HandlerBegin? || step.HandlerRead? || step.HandlerCancel? || step.HandlerEnd? {
      HandlerStepStaysExact(s, disk, step);
    } else if step.StartPoll? || step.PruneWaiters? || step.FinishPoll? {
      PollStepStaysExact(s, disk, step);
    } else if step.Process? {
      ProcessStaysExact(s, disk, step.needsData, step.reading);
    } else {
      EngineStaysExact(s, disk, step);
    }
  }

  ghost predicate AllTruthful(s: State, disk: Disk, steps: seq<Step>)
    decreases |steps|
  {
    steps == [] ||
    (Truthful(s, disk, steps[0]) && AllTruthful(Next(s, steps[0]), Reported(s, disk, steps[0]), steps[1..]))
  }

  ghost function DiskAfter(s: State, disk: Disk, steps: seq<Step>): Disk
    decreases |steps|
  {
    if steps == [] then disk else DiskAfter(Next(s, steps[0]), Reported(s, disk, steps[0]), steps[1..])
  }

  /** Through every run of finished blocks, failed hashes and everything else, the records stay exact. */
  lemma {:induction false} RecordsStayExact(s: State, disk: Disk, steps: seq<Step>)
    requires Exact(s.tables.partial, disk) && AllTruthful(s, disk, steps)
    ensures Exact(Run(s, steps).tables.partial, DiskAfter(s, disk, steps))
    decreases |steps|
  {
    if steps != [] {
      StepStaysExact(s, disk, steps[0]);
      RecordsStayExact(Next(s, steps[0]), Reported(s, disk, steps[0]), steps[1..]);
    }
  }
}
