/** Which step adds a member to the tables of the stream bridge, and which takes it away. */
module StreamBridgeMembers {
  import opened Common
  import opened StreamBridge
  import opened StreamBridgeSafety
  import opened StreamBridgeOutcomes

  /** The command a step processes. */
  predicate Processes(s: State, step: Step) {
    step.Process? && s.phase == Draining && s.batch != []
  }

  /** The step stops, removes or replaces the stream of the route. */
  predicate EndsRoute(s: State, step: Step, r: Route) {
    && s.phase == Idle
    && match step
       case Stop(stream, _) => r.stream == stream
       case Remove(id, _) => r.torrent == id
       case Register(next, _, _) => next.stream !in s.owners && r.torrent == next.torrent
       case _ => false
  }

  // ----- demands -----

  lemma StoppedDemands(t: Tables, streams: set<Stream>, d: nat)
    ensures d in StopStreams(t, streams).demands <==> d in t.demands && t.demands[d].route.stream !in streams
    ensures d in StopStreams(t, streams).cancelled <==>
      d in t.cancelled || (d in t.demands && t.demands[d].route.stream in streams)
  {
    assert d in DemandsOf(t, streams) <==> d in t.demands && t.demands[d].route.stream in streams;
  }

  lemma RegisteredDemands(t: Tables, r: Route, nonEmpty: bool, planned: bool)
    ensures var u := StopStreams(t, set s | s in t.routes && t.routes[s] == r.torrent);
      var t' := RegisterStream(t, r, nonEmpty, planned);
      && t'.demands == u.demands && t'.cancelled == u.cancelled
      && t'.routes == u.routes[r.stream := r.torrent] && t'.revoked == u.revoked - {r.torrent}
  {
  }

  /** What an operation outside the command loop does to a demand. */
  lemma DemandAfterOperation(s: State, step: Step, d: nat)
    requires DemandsSound(s.tables) && Applies(s, step)
    ensures d in Operate(s.tables, step).demands <==>
      d in s.tables.demands && !EndsRoute(s, step, s.tables.demands[d].route)
    ensures d in Operate(s.tables, step).cancelled <==>
      d in s.tables.cancelled || (d in s.tables.demands && EndsRoute(s, step, s.tables.demands[d].route))
  {
    var t := s.tables;
    if d in t.demands {
      assert RouteLive(t, t.demands[d].route);
    }
    if step.Register? {
      assert Operate(t, step) == RegisterStream(t, step.route, step.nonEmpty, step.planned);
      RegisteredDemands(t, step.route, step.nonEmpty, step.planned);
      StoppedDemands(t, (set x | x in t.routes && t.routes[x] == step.route.torrent), d);
    } else if step.Stop? {
      assert Operate(t, step) == StopStream(t, step.stream, step.planned);
      StoppedDemands(t, {step.stream}, d);
    } else if step.Remove? {
      assert Operate(t, step) == RemoveTorrent(t, step.torrent, step.planned);
      ClearedDemands(t, step.torrent, step.planned, d);
    } else {
      QuietDemands(t, step);
    }
  }

  lemma ClearedDemands(t: Tables, id: Torrent, planned: bool, d: nat)
    ensures d in RemoveTorrent(t, id, planned).demands <==> d in t.demands && t.demands[d].route.torrent != id
    ensures d in RemoveTorrent(t, id, planned).cancelled <==>
      d in t.cancelled || (d in t.demands && t.demands[d].route.torrent == id)
  {
  }

  lemma QuietDemands(t: Tables, step: Step)
    requires !step.Register? && !step.Stop? && !step.Remove?
    ensures Operate(t, step).demands == t.demands && Operate(t, step).cancelled == t.cancelled
  {
  }

  /** The processed command begins, refuses or ends the demand. */
  predicate BeginsDemand(s: State, step: Step, d: nat) {
    Processes(s, step) && s.batch[0].BeginDemand? && s.batch[0].demand == d && RouteIsActive(s.tables, s.batch[0].route)
  }

  predicate RefusesDemand(s: State, step: Step, d: nat) {
    Processes(s, step) && s.batch[0].BeginDemand? && s.batch[0].demand == d && !RouteIsActive(s.tables, s.batch[0].route)
  }

  predicate EndsDemand(s: State, step: Step, d: nat) {
    || (Processes(s, step) && s.batch[0] == EndDemand(d))
    || (d in s.tables.demands && EndsRoute(s, step, s.tables.demands[d].route))
  }

  lemma DemandAfterCommand(t: Tables, c: Command, needsData: bool, reading: Reading, d: nat)
    ensures var t' := ProcessCommand(t, c, needsData, reading);
      && (d in t'.demands <==> (c.BeginDemand? && c.demand == d && RouteIsActive(t, c.route)) || (d in t.demands && c != EndDemand(d)))
      && (d in t'.cancelled <==> (c.BeginDemand? && c.demand == d && !RouteIsActive(t, c.route)) || d in t.cancelled)
  {
    if c.ReadPiece? {
      assert ProcessCommand(t, c, needsData, reading) == ProcessRead(t, c, reading);
      ReadKeepsMembers(t, c, reading);
    }
  }

  lemma ReadKeepsMembers(t: Tables, c: Command, reading: Reading)
    requires c.ReadPiece?
    ensures ProcessRead(t, c, reading).demands.Keys == t.demands.Keys && ProcessRead(t, c, reading).cancelled == t.cancelled
  {
  }

  lemma QuietSteps(s: State, step: Step)
    requires IsQuiet(step)
    ensures var t, t' := s.tables, Next(s, step).tables;
      t'.demands == t.demands && t'.cancelled == t.cancelled && t'.routes == t.routes && t'.revoked == t.revoked
  {
    match step
    case HandlerBegin(_) =>
    case HandlerRead(_, _) =>
    case HandlerCancel(_) =>
    case HandlerEnd(_) =>
    case StartPoll =>
    case PruneWaiters =>
    case FinishPoll =>
  }

  predicate IsQuiet(step: Step) {
    step.HandlerBegin? || step.HandlerRead? || step.HandlerCancel? || step.HandlerEnd?
    || step.StartPoll? || step.PruneWaiters? || step.FinishPoll?
  }

  /** What becomes of demand `d` in the tables after the step. */
  predicate DemandNext(s: State, step: Step, t': Tables, d: nat) {
    var t := s.tables;
    && (d in t'.demands <==> BeginsDemand(s, step, d) || (d in t.demands && !EndsDemand(s, step, d)))
    && (d in t'.cancelled <==>
        || d in t.cancelled || RefusesDemand(s, step, d)
        || (d in t.demands && EndsRoute(s, step, t.demands[d].route)))
  }

  /** A step that is neither a handler's, nor the poll's own, nor a command. */
  lemma TablesAfterEngine(s: State, step: Step)
    requires !IsQuiet(step) && !step.Process?
    ensures Next(s, step).tables == if Applies(s, step) then Operate(s.tables, step) else s.tables
  {
  }

  /** Such a step that cannot be taken now does nothing. */
  lemma NotApplied(s: State, step: Step, r: Route)
    requires !IsQuiet(step) && !step.Process? && !Applies(s, step)
    ensures !EndsRoute(s, step, r)
  {
  }

  /**
   In every run a demand becomes active exactly by its command on a live route that is not revoked, stays
   active until its handler or its route ends, and is told to give up exactly if it was refused or cut off.
   */
  lemma DemandsExactly(steps: seq<Step>, step: Step, d: nat)
    ensures DemandNext(Run(INITIAL, steps), step, Next(Run(INITIAL, steps), step).tables, d)
  {
    RunsAreSound(INITIAL, steps);
    DemandAfterStep(Run(INITIAL, steps), step, d);
  }

  lemma DemandAfterStep(s: State, step: Step, d: nat)
    requires DemandsSound(s.tables)
    ensures DemandNext(s, step, Next(s, step).tables, d)
  {
    if IsQuiet(step) {
      QuietSteps(s, step);
    } else if step.Process? {
      TablesAfterProcess(s, step.needsData, step.reading);
      if Processes(s, step) {
        DemandAfterCommand(s.tables, s.batch[0], step.needsData, step.reading, d);
      }
    } else {
      TablesAfterEngine(s, step);
      if Applies(s, step) {
        DemandAfterOperation(s, step, d);
      } else if d in s.tables.demands {
        NotApplied(s, step, s.tables.demands[d].route);
      }
    }
  }

  // ----- routes -----

  predicate AddsRoute(s: State, step: Step, stream: Stream) {
    s.phase == Idle && step.Register? && step.route.stream == stream && stream !in s.owners
  }

  predicate ExpiresRoute(s: State, step: Step, stream: Stream) {
    && step.ExpireStream? && step.stream == stream && s.phase == Settling && s.changed == {}
    && DemandsOf(s.tables, {stream}) == {}
  }

  /** What becomes of the route of a stream after the step. */
  predicate RouteNext(s: State, step: Step, t': Tables, stream: Stream) {
    var t := s.tables;
    && (stream in t'.routes <==>
        || AddsRoute(s, step, stream)
        || (&& stream in t.routes
            && !EndsRoute(s, step, Route(stream, t.routes[stream])) && !ExpiresRoute(s, step, stream)))
    && (stream in t'.routes ==>
        t'.routes[stream] == if AddsRoute(s, step, stream) then step.route.torrent else t.routes[stream])
  }

  lemma RouteAfterRegister(s: State, step: Step, stream: Stream)
    requires Applies(s, step) && step.Register? && (stream in s.tables.routes ==> stream in s.owners)
    ensures RouteNext(s, step, Operate(s.tables, step), stream)
  {
    var t := s.tables;
    assert Operate(t, step) == RegisterStream(t, step.route, step.nonEmpty, step.planned);
    RegisteredDemands(t, step.route, step.nonEmpty, step.planned);
  }

  lemma RouteAfterEnding(s: State, step: Step, stream: Stream)
    requires Applies(s, step) && (step.Stop? || step.Remove?)
    ensures RouteNext(s, step, Operate(s.tables, step), stream)
  {
    var t := s.tables;
    if step.Stop? {
      assert Operate(t, step) == StopStream(t, step.stream, step.planned);
    } else {
      assert Operate(t, step) == RemoveTorrent(t, step.torrent, step.planned);
      SameRoutes(Cleared(t, step.torrent), step.torrent, step.planned);
    }
  }

  lemma RouteAfterExpiry(s: State, step: Step, stream: Stream)
    requires Applies(s, step) && step.ExpireStream?
    ensures RouteNext(s, step, Operate(s.tables, step), stream)
  {
    var t := s.tables;
    if step.stream in t.routes {
      assert Operate(t, step) == Recompute(Expire(t, step.stream), t.routes[step.stream], step.planned);
      SameRoutes(Expire(t, step.stream), t.routes[step.stream], step.planned);
    }
  }

  lemma RouteAfterOperation(s: State, step: Step, stream: Stream)
    requires Applies(s, step) && (stream in s.tables.routes ==> stream in s.owners)
    ensures RouteNext(s, step, Operate(s.tables, step), stream)
  {
    if step.Register? {
      RouteAfterRegister(s, step, stream);
    } else if step.Stop? || step.Remove? {
      RouteAfterEnding(s, step, stream);
    } else if step.ExpireStream? {
      RouteAfterExpiry(s, step, stream);
    } else {
      QuietRoutes(s.tables, step);
    }
  }

  lemma QuietRoutes(t: Tables, step: Step)
    requires !step.Register? && !step.Stop? && !step.Remove? && !step.ExpireStream?
    ensures Operate(t, step).routes == t.routes
  {
  }

  lemma CommandKeepsRoutes(t: Tables, c: Command, needsData: bool, reading: Reading)
    ensures ProcessCommand(t, c, needsData, reading).routes == t.routes && ProcessCommand(t, c, needsData, reading).revoked == t.revoked
  {
  }

  /** In every run a stream has a route exactly from its registration until it is stopped, removed, replaced or expires. */
  lemma RoutesExactly(steps: seq<Step>, step: Step, stream: Stream)
    ensures RouteNext(Run(INITIAL, steps), step, Next(Run(INITIAL, steps), step).tables, stream)
  {
    RunsAreSound(INITIAL, steps);
    RouteAfterStep(Run(INITIAL, steps), step, stream);
  }

  lemma RouteAfterStep(s: State, step: Step, stream: Stream)
    requires RoutesSound(s.tables, s.owners)
    ensures RouteNext(s, step, Next(s, step).tables, stream)
  {
    if IsQuiet(step) {
      QuietSteps(s, step);
    } else if step.Process? {
      TablesAfterProcess(s, step.needsData, step.reading);
      if Processes(s, step) {
        CommandKeepsRoutes(s.tables, s.batch[0], step.needsData, step.reading);
      }
    } else {
      TablesAfterEngine(s, step);
      if Applies(s, step) {
        RouteAfterOperation(s, step, stream);
      } else if stream in s.tables.routes {
        NotApplied(s, step, Route(stream, s.tables.routes[stream]));
      }
    }
  }

  // ----- torrents -----

  /** A torrent is revoked from its removal until a stream of it is registered again. */
  predicate RevokedNext(s: State, step: Step, t': Tables, id: Torrent) {
    id in t'.revoked <==>
    || (step.Remove? && step.torrent == id && s.phase == Idle)
    || (id in s.tables.revoked && !(step.Register? && step.route.torrent == id && Applies(s, step)))
  }

  lemma RevokedAfterOperation(s: State, step: Step, id: Torrent)
    requires Applies(s, step)
    ensures RevokedNext(s, step, Operate(s.tables, step), id)
  {
    var t := s.tables;
    if step.Register? {
      assert Operate(t, step) == RegisterStream(t, step.route, step.nonEmpty, step.planned);
      RegisteredDemands(t, step.route, step.nonEmpty, step.planned);
    } else if step.Remove? {
      assert Operate(t, step) == RemoveTorrent(t, step.torrent, step.planned);
    } else {
      QuietRevoked(t, step);
    }
  }

  lemma QuietRevoked(t: Tables, step: Step)
    requires !step.Register? && !step.Remove?
    ensures Operate(t, step).revoked == t.revoked
  {
  }

  lemma RevokedExactly(s: State, step: Step, id: Torrent)
    ensures RevokedNext(s, step, Next(s, step).tables, id)
  {
    if IsQuiet(step) {
      QuietSteps(s, step);
    } else if step.Process? {
      TablesAfterProcess(s, step.needsData, step.reading);
      if Processes(s, step) {
        CommandKeepsRoutes(s.tables, s.batch[0], step.needsData, step.reading);
      }
    } else {
      TablesAfterEngine(s, step);
      if Applies(s, step) {
        RevokedAfterOperation(s, step, id);
      }
    }
  }

  /** A new stream takes over its torrent: nobody else's demand is left, and it is anchored to prefetch. */
  lemma RegistrationAnchors(t: Tables, r: Route, planned: bool)
    requires DemandsSound(t)
    ensures var t' := RegisterStream(t, r, true, planned);
      && RouteIsActive(t', r) && (forall d :: !ActiveFor(t', d, r.torrent))
      && r.torrent in t'.anchors && t'.anchors[r.torrent] == StreamAnchor(r, true)
  {
    var t' := RegisterStream(t, r, true, planned);
    RegisteredDemands(t, r, true, planned);
    forall d ensures !ActiveFor(t', d, r.torrent) {
      StoppedDemands(t, (set s | s in t.routes && t.routes[s] == r.torrent), d);
      if d in t.demands {
        assert RouteLive(t, t.demands[d].route);
      }
    }
    assert forall d :: IsFocus(t', r.torrent, d) ==> ActiveFor(t', d, r.torrent);
  }

  // ----- waiters -----

  /** The read of the waiter is processed and neither refused nor answered at once. */
  predicate Enlists(s: State, step: Step, w: nat) {
    && Processes(s, step) && s.batch[0].ReadPiece? && s.batch[0].waiter == w
    && Answerable(s.tables, s.batch[0]) && (step.reading.OnDisk? || step.reading.Missing?)
  }

  /** The waiter's piece is delivered, its route ends, or it is found cancelled. */
  predicate Dismisses(s: State, step: Step, w: nat)
    requires w < |s.tables.waiters|
  {
    var t, x := s.tables, s.tables.waiters[w];
    || (step.PruneWaiters? && s.phase == Draining && s.batch == [] && x.cancelled)
    || (step.DeliverPiece? && s.phase == Idle && x.key == step.key)
    || (x.demand in t.demands && EndsRoute(s, step, t.demands[x.demand].route))
  }

  lemma StopDismisses(t: Tables, streams: set<Stream>, w: nat)
    requires WaitingSound(t, true) && w < |t.waiters|
    ensures w in Registered(StopStreams(t, streams)) <==>
      w in Registered(t) && !(t.waiters[w].demand in t.demands && t.demands[t.waiters[w].demand].route.stream in streams)
  {
    var u := t.(routes := t.routes - streams,
                anchors := map id | id in t.anchors && t.anchors[id].route.stream !in streams :: t.anchors[id]);
    var ids := DemandsOf(t, streams);
    CancelKeepsWaiting(u, ids);
    assert Registered(u) == Registered(t) && WaitersOf(u, ids) == WaitersOf(t, ids);
  }

  lemma SameRegistered(t: Tables, id: Torrent, planned: bool)
    ensures Registered(Recompute(t, id, planned)) == Registered(t)
  {
  }

  /** A registered waiter belongs to a demand with a live route, whose torrent is that of its piece. */
  lemma RegisteredIsLive(t: Tables, w: nat)
    requires WaitingSound(t, true) && DemandsSound(t) && w in Registered(t)
    ensures ActiveFor(t, t.waiters[w].demand, t.waiters[w].key.torrent) && RouteLive(t, t.demands[t.waiters[w].demand].route)
  {
    assert Entry(t, t.waiters[w].key, w, true);
  }

  lemma StopStepDismisses(s: State, step: Step, w: nat)
    requires WaitingSound(s.tables, true) && DemandsSound(s.tables) && s.phase == Idle && w < |s.tables.waiters| && step.Stop?
    ensures w in Registered(StopStream(s.tables, step.stream, step.planned)) <==>
      w in Registered(s.tables) && !Dismisses(s, step, w)
  {
    StopDismisses(s.tables, {step.stream}, w);
    StopRegistered(s.tables, step.stream, step.planned);
  }

  lemma RemoveStepDismisses(s: State, step: Step, w: nat)
    requires WaitingSound(s.tables, true) && DemandsSound(s.tables) && s.phase == Idle && w < |s.tables.waiters| && step.Remove?
    ensures w in Registered(RemoveTorrent(s.tables, step.torrent, step.planned)) <==>
      w in Registered(s.tables) && !Dismisses(s, step, w)
  {
    var t := s.tables;
    if w in Registered(t) {
      RegisteredIsLive(t, w);
    }
    ClearKeepsWaiting(t, step.torrent);
    SameRegistered(Cleared(t, step.torrent), step.torrent, step.planned);
  }

  lemma RegisterStepDismisses(s: State, step: Step, w: nat)
    requires WaitingSound(s.tables, true) && DemandsSound(s.tables) && s.phase == Idle && w < |s.tables.waiters| && step.Register? && step.route.stream !in s.owners
    ensures w in Registered(RegisterStream(s.tables, step.route, step.nonEmpty, step.planned)) <==>
      w in Registered(s.tables) && !Dismisses(s, step, w)
  {
    var t := s.tables;
    if w in Registered(t) {
      RegisteredIsLive(t, w);
    }
    StopDismisses(t, (set x | x in t.routes && t.routes[x] == step.route.torrent), w);
    RegisterRegistered(t, step.route, step.nonEmpty, step.planned);
  }

  lemma StopRegistered(t: Tables, stream: Stream, planned: bool)
    ensures Registered(StopStream(t, stream, planned)) == Registered(StopStreams(t, {stream}))
  {
    if stream in t.routes {
      SameRegistered(StopStreams(t, {stream}), t.routes[stream], planned);
    }
  }

  lemma RegisterRegistered(t: Tables, r: Route, nonEmpty: bool, planned: bool)
    ensures Registered(RegisterStream(t, r, nonEmpty, planned)) ==
      Registered(StopStreams(t, set s | s in t.routes && t.routes[s] == r.torrent))
  {
    var u := StopStreams(t, set s | s in t.routes && t.routes[s] == r.torrent);
    var t' := RegisterStream(t, r, nonEmpty, planned);
    assert t'.waiting == u.waiting && t'.waiters == u.waiters;
    assert Registered(t') == Registered(u);
  }

  lemma DeliveryDismisses(s: State, step: Step, w: nat)
    requires WaitingSound(s.tables, true) && DemandsSound(s.tables) && s.phase == Idle && w < |s.tables.waiters| && step.DeliverPiece?
    ensures w in Registered(Operate(s.tables, step)) <==> w in Registered(s.tables) && !Dismisses(s, step, w)
  {
    var t, outcome := s.tables, if step.succeeded then Data(step.key) else Failed;
    assert Operate(t, step) == FinishPiece(t, step.key, outcome);
    FinishedLeave(t, step.key, outcome);
  }

  lemma FinishedLeave(t: Tables, key: Key, outcome: Outcome)
    ensures Registered(FinishPiece(t, key, outcome)) == Registered(t) - WaitersFor(t, key)
  {
  }

  lemma OperationDismisses(s: State, step: Step, w: nat)
    requires WaitingSound(s.tables, true) && DemandsSound(s.tables) && Applies(s, step)
    requires w < |s.tables.waiters| && !IsQuiet(step) && !step.Process?
    ensures w in Registered(Operate(s.tables, step)) <==> w in Registered(s.tables) && !Dismisses(s, step, w)
  {
    if step.Stop? {
      assert Operate(s.tables, step) == StopStream(s.tables, step.stream, step.planned);
      StopStepDismisses(s, step, w);
    } else if step.Remove? {
      assert Operate(s.tables, step) == RemoveTorrent(s.tables, step.torrent, step.planned);
      RemoveStepDismisses(s, step, w);
    } else if step.Register? {
      assert Operate(s.tables, step) == RegisterStream(s.tables, step.route, step.nonEmpty, step.planned);
      RegisterStepDismisses(s, step, w);
    } else if step.DeliverPiece? {
      DeliveryDismisses(s, step, w);
    } else {
      QuietRegistered(s.tables, step);
    }
  }

  lemma QuietRegistered(t: Tables, step: Step)
    requires !step.Register? && !step.Stop? && !step.Remove? && !step.DeliverPiece?
    ensures Registered(Operate(t, step)) == Registered(t)
  {
    var t' := Operate(t, step);
    assert t'.waiting == t.waiting && t'.waiters == t.waiters;
  }

  lemma CommandEnlists(s: State, step: Step, w: nat)
    requires Sound(s) && Processes(s, step) && w < |s.tables.waiters|
    ensures w in Registered(ProcessCommand(s.tables, s.batch[0], step.needsData, step.reading)) <==>
      w in Registered(s.tables) || Enlists(s, step, w)
  {
    var t, c := s.tables, s.batch[0];
    CommandsTail(s.handlers, t.waiters, s.batch);
    if c.ReadPiece? {
      ReadEnlists(t, c, step.reading, w);
    } else {
      var t' := ProcessCommand(t, c, step.needsData, step.reading);
      assert t'.waiting == t.waiting && t'.waiters == t.waiters;
    }
  }

  lemma ReadEnlists(t: Tables, c: Command, reading: Reading, w: nat)
    requires c.ReadPiece? && c.waiter < |t.waiters| && t.waiters[c.waiter].key == c.key && w < |t.waiters|
    ensures w in Registered(ProcessRead(t, c, reading)) <==>
      w in Registered(t) || (w == c.waiter && Answerable(t, c) && (reading.OnDisk? || reading.Missing?))
  {
    var t' := ProcessRead(t, c, reading);
    if Answerable(t, c) && (reading.OnDisk? || reading.Missing?) {
      EnlistedRegistered(t, c.key, c.waiter, t'.partial);
      assert t'.waiting == Enlisted(t, c.key, c.waiter, t'.partial).waiting;
      assert Registered(t') == Registered(t) + {c.waiter};
    } else {
      assert t'.waiting == t.waiting;
      assert forall x :: 0 <= x < |t.waiters| ==> t'.waiters[x].key == t.waiters[x].key;
    }
  }

  lemma PruneDismisses(s: State, w: nat)
    requires WaitingSound(s.tables, false) && s.phase == Draining && s.batch == [] && w < |s.tables.waiters|
    ensures w in Registered(Prune(s.tables)) <==> w in Registered(s.tables) && !s.tables.waiters[w].cancelled
  {
    var t := s.tables;
    var dropped := set x | 0 <= x < |t.waiters| && t.waiters[x].cancelled;
    UnregisterKeepsWaiting(t, dropped, false);
  }

  lemma HandlersKeepRegistered(s: State, step: Step, w: nat)
    requires w < |s.tables.waiters| && IsQuiet(step) && !step.PruneWaiters?
    ensures w in Registered(Next(s, step).tables) <==> w in Registered(s.tables)
  {
    var t, t' := s.tables, Next(s, step).tables;
    assert t'.waiting == t.waiting && |t.waiters| <= |t'.waiters| && t'.waiters[w].key == t.waiters[w].key;
  }

  /** In every run a waiter is registered exactly from the read that has to wait until it is answered or given up. */
  lemma WaitersExactly(steps: seq<Step>, step: Step, w: nat)
    requires w < |Run(INITIAL, steps).tables.waiters|
    ensures var s := Run(INITIAL, steps);
      w in Registered(Next(s, step).tables) <==>
      Enlists(s, step, w) || (w in Registered(s.tables) && !Dismisses(s, step, w))
  {
    RunsAreSound(INITIAL, steps);
    WaiterAfterStep(Run(INITIAL, steps), step, w);
  }

  lemma WaiterAfterStep(s: State, step: Step, w: nat)
    requires Sound(s) && w < |s.tables.waiters|
    ensures w in Registered(Next(s, step).tables) <==>
      Enlists(s, step, w) || (w in Registered(s.tables) && !Dismisses(s, step, w))
  {
    if step.PruneWaiters? {
      if s.phase == Draining && s.batch == [] {
        PruneDismisses(s, w);
      }
    } else if IsQuiet(step) {
      HandlersKeepRegistered(s, step, w);
    } else if step.Process? {
      TablesAfterProcess(s, step.needsData, step.reading);
      if Processes(s, step) {
        CommandEnlists(s, step, w);
      }
    } else {
      EngineDismisses(s, step, w);
    }
  }

  lemma EngineDismisses(s: State, step: Step, w: nat)
    requires TablesSound(s.tables, s.owners, s.phase != Draining) && w < |s.tables.waiters| && !IsQuiet(step) && !step.Process?
    ensures w in Registered(Next(s, step).tables) <==> w in Registered(s.tables) && !Dismisses(s, step, w)
  {
    TablesAfterEngine(s, step);
    if Applies(s, step) {
      assert s.phase != Draining;
      OperationDismisses(s, step, w);
    } else {
      NothingDismissed(s, step, w);
    }
  }

  lemma NothingDismissed(s: State, step: Step, w: nat)
    requires w < |s.tables.waiters| && !IsQuiet(step) && !step.Process? && !Applies(s, step)
    ensures !Dismisses(s, step, w)
  {
  }

  // ----- records of blocks -----

  /** A read finds a piece missing, and its blocks are looked up. */
  predicate OpensRecord(s: State, step: Step, key: Key) {
    && Processes(s, step) && s.batch[0].ReadPiece? && s.batch[0].key == key
    && Answerable(s.tables, s.batch[0]) && step.reading.Missing?
  }

  /** A record is kept exactly as long as somebody waits for the piece. */
  predicate RecordNext(s: State, step: Step, t': Tables, key: Key) {
    key in t'.partial <==> OpensRecord(s, step, key) || (key in s.tables.partial && key in t'.waiting)
  }

  /** Only where nobody is left waiting is a record dropped. */
  predicate RecordsFollow(t: Tables, t': Tables, key: Key) {
    key in t'.partial <==> key in t.partial && key in t'.waiting
  }

  lemma UnregisterFollows(t: Tables, dropped: set<nat>, key: Key)
    requires key in t.partial ==> key in t.waiting
    ensures RecordsFollow(t, Unregister(t, dropped), key)
  {
  }

  lemma StopFollows(t: Tables, streams: set<Stream>, key: Key)
    requires key in t.partial ==> key in t.waiting
    ensures RecordsFollow(t, StopStreams(t, streams), key)
  {
    var ids := DemandsOf(t, streams);
    var u := t.(routes := t.routes - streams,
                anchors := map id | id in t.anchors && t.anchors[id].route.stream !in streams :: t.anchors[id]);
    UnregisterFollows(u, WaitersOf(u, ids), key);
    var t' := StopStreams(t, streams);
    assert t'.partial == Unregister(u, WaitersOf(u, ids)).partial && t'.waiting == Unregister(u, WaitersOf(u, ids)).waiting;
  }

  lemma EndingFollows(t: Tables, step: Step, key: Key)
    requires (key in t.partial ==> key in t.waiting) && (step.Stop? || step.Remove? || step.Register?)
    ensures RecordsFollow(t, Operate(t, step), key)
  {
    if step.Stop? {
      assert Operate(t, step) == StopStream(t, step.stream, step.planned);
      StopFollows(t, {step.stream}, key);
    } else if step.Remove? {
      assert Operate(t, step) == RemoveTorrent(t, step.torrent, step.planned);
      SameLines(Cleared(t, step.torrent), step.torrent, step.planned);
    } else {
      assert Operate(t, step) == RegisterStream(t, step.route, step.nonEmpty, step.planned);
      var previous := set x | x in t.routes && t.routes[x] == step.route.torrent;
      StopFollows(t, previous, key);
      RegisterLines(t, step.route, step.nonEmpty, step.planned);
    }
  }

  lemma SameLines(t: Tables, id: Torrent, planned: bool)
    ensures Recompute(t, id, planned).partial == t.partial && Recompute(t, id, planned).waiting == t.waiting
  {
  }

  lemma RegisterLines(t: Tables, r: Route, nonEmpty: bool, planned: bool)
    ensures var t', u := RegisterStream(t, r, nonEmpty, planned), StopStreams(t, set s | s in t.routes && t.routes[s] == r.torrent);
      t'.partial == u.partial && t'.waiting == u.waiting
  {
  }

  lemma OperationFollows(t: Tables, step: Step, key: Key)
    requires key in t.partial ==> key in t.waiting
    ensures RecordsFollow(t, Operate(t, step), key)
  {
    if step.Stop? || step.Remove? || step.Register? {
      EndingFollows(t, step, key);
    } else {
      QuietFollows(t, step, key);
    }
  }

  lemma QuietFollows(t: Tables, step: Step, key: Key)
    requires key in t.partial ==> key in t.waiting
    requires !step.Stop? && !step.Remove? && !step.Register?
    ensures RecordsFollow(t, Operate(t, step), key)
  {
    match step
    case DeliverPiece(_, _) =>
    case DeliverBlock(k, block, planned) => SameLines(BlockFinished(t, k, block), k.torrent, planned);
    case DeliverHashFailure(_) =>
    case RecomputeChanged(id, planned) => SameLines(t, id, planned);
    case ExpireStream(stream, planned) =>
      if stream in t.routes {
        SameLines(Expire(t, stream), t.routes[stream], planned);
      }
    case _ =>
  }

  lemma CommandRecords(t: Tables, c: Command, needsData: bool, reading: Reading, key: Key)
    requires key in t.partial ==> key in t.waiting
    ensures var t' := ProcessCommand(t, c, needsData, reading);
      key in t'.partial <==>
      || (c.ReadPiece? && c.key == key && Answerable(t, c) && reading.Missing?)
      || (key in t.partial && key in t'.waiting)
  {
    if c.ReadPiece? {
      assert ProcessCommand(t, c, needsData, reading) == ProcessRead(t, c, reading);
    }
  }

  lemma HandlersKeepRecords(s: State, step: Step)
    requires IsQuiet(step) && !step.PruneWaiters?
    ensures Next(s, step).tables.partial == s.tables.partial && Next(s, step).tables.waiting == s.tables.waiting
  {
    match step
    case HandlerBegin(_) =>
    case HandlerRead(_, _) =>
    case HandlerCancel(_) =>
    case HandlerEnd(_) =>
    case StartPoll =>
    case FinishPoll =>
  }

  /** In every run the blocks of a piece are recorded exactly from a read that misses it until nobody waits for it. */
  lemma RecordsExactly(steps: seq<Step>, step: Step, key: Key)
    ensures RecordNext(Run(INITIAL, steps), step, Next(Run(INITIAL, steps), step).tables, key)
  {
    RunsAreSound(INITIAL, steps);
    RecordAfterStep(Run(INITIAL, steps), step, key);
  }

  lemma RecordAfterStep(s: State, step: Step, key: Key)
    requires key in s.tables.partial ==> key in s.tables.waiting
    ensures RecordNext(s, step, Next(s, step).tables, key)
  {
    if step.PruneWaiters? {
      if s.phase == Draining && s.batch == [] {
        UnregisterFollows(s.tables, (set w | 0 <= w < |s.tables.waiters| && s.tables.waiters[w].cancelled), key);
      }
    } else if IsQuiet(step) {
      HandlersKeepRecords(s, step);
    } else if step.Process? {
      TablesAfterProcess(s, step.needsData, step.reading);
      if Processes(s, step) {
        CommandRecords(s.tables, s.batch[0], step.needsData, step.reading, key);
      }
    } else {
      TablesAfterEngine(s, step);
      OperationFollows(s.tables, step, key);
    }
  }
}
