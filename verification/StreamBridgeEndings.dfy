/** No demand of the stream bridge outlives the handler that made it. */
module StreamBridgeEndings {
  import opened Common
  import opened StreamBridge
  import opened StreamBridgeSafety
  import opened StreamBridgeLookups

  predicate Begins(c: Command, d: nat) {
    c.BeginDemand? && c.demand == d
  }

  /** The command that ends the demand is queued, and none behind it begins the demand. */
  ghost predicate EndAhead(q: seq<Command>, d: nat) {
    exists i :: 0 <= i < |q| && q[i] == EndDemand(d) && forall j :: i < j < |q| ==> !Begins(q[j], d)
  }

  ghost predicate NoBegin(q: seq<Command>, d: nat) {
    forall j :: 0 <= j < |q| ==> !Begins(q[j], d)
  }

  /** The demand of an ended handler is about to end, or over for good. */
  ghost predicate Ending(q: seq<Command>, t: Tables, d: nat) {
    EndAhead(q, d) || (d !in t.demands && NoBegin(q, d))
  }

  ghost predicate EndingsSound(s: State) {
    forall d :: d in s.handlers && s.handlers[d].ended ==> Ending(s.batch + s.commands, s.tables, d)
  }

  lemma AppendEnding(q: seq<Command>, c: Command, t: Tables, d: nat)
    requires (Ending(q, t, d) && !Begins(c, d)) || c == EndDemand(d)
    ensures Ending(q + [c], t, d)
  {
    var more := q + [c];
    if c == EndDemand(d) {
      assert more[|q|] == c;
    } else if EndAhead(q, d) {
      var i :| 0 <= i < |q| && q[i] == EndDemand(d) && forall j :: i < j < |q| ==> !Begins(q[j], d);
      assert more[i] == q[i];
    }
  }

  /** One command is processed: it ends the demand, or leaves the command that will. */
  lemma ProcessEnding(q: seq<Command>, t: Tables, t': Tables, d: nat)
    requires q != [] && Ending(q, t, d)
    requires d in t'.demands ==> (d in t.demands && q[0] != EndDemand(d)) || Begins(q[0], d)
    ensures Ending(q[1..], t', d)
  {
    var rest := q[1..];
    assert forall j :: 0 <= j < |rest| ==> rest[j] == q[j + 1];
    if EndAhead(q, d) {
      var i :| 0 <= i < |q| && q[i] == EndDemand(d) && forall j :: i < j < |q| ==> !Begins(q[j], d);
      if i > 0 {
        assert rest[i - 1] == q[i];
      }
    }
  }

  /** A handler's step that queues a command: it begins no demand of an ended handler. */
  lemma QueuedEndings(s: State, s': State, c: Command)
    requires EndingsSound(s) && s'.tables.demands == s.tables.demands
    requires s'.batch == s.batch && s'.commands == s.commands + [c]
    requires forall d :: d in s'.handlers && s'.handlers[d].ended ==>
      c == EndDemand(d) || (d in s.handlers && s.handlers[d].ended && !Begins(c, d))
    ensures EndingsSound(s')
  {
    var q := s.batch + s.commands;
    assert s'.batch + s'.commands == q + [c];
    forall d | d in s'.handlers && s'.handlers[d].ended ensures Ending(q + [c], s'.tables, d) {
      AppendEnding(q, c, s.tables, d);
    }
  }

  lemma BeginEndings(s: State, stream: Stream)
    requires HandlersSound(s) && EndingsSound(s)
    ensures EndingsSound(BeginStep(s, stream))
  {
    if stream in s.owners && |s.commands| < MAXIMUM_HTTP_COMMANDS {
      assert s.nextDemand in s.handlers ==> HandlerSound(s, s.nextDemand, s.handlers[s.nextDemand]);
      QueuedEndings(s, BeginStep(s, stream), BeginDemand(s.nextDemand, Route(stream, s.owners[stream])));
    }
  }

  lemma ReadEndings(s: State, d: nat, piece: nat)
    requires EndingsSound(s)
    ensures EndingsSound(ReadStep(s, d, piece))
  {
    if Unoccupied(s, d) && |s.commands| < MAXIMUM_HTTP_COMMANDS {
      var key := Key(s.handlers[d].route.torrent, piece);
      QueuedEndings(s, ReadStep(s, d, piece), ReadPiece(d, key, |s.tables.waiters|));
    }
  }

  lemma EndEndings(s: State, d: nat)
    requires EndingsSound(s)
    ensures EndingsSound(EndStep(s, d))
  {
    if Unoccupied(s, d) {
      QueuedEndings(s, EndStep(s, d), EndDemand(d));
    }
  }

  lemma HandlerEndings(s: State, step: Step)
    requires Sound(s) && EndingsSound(s)
    requires step.HandlerBegin? || step.HandlerRead? || step.HandlerCancel? || step.HandlerEnd?
    ensures EndingsSound(Next(s, step))
  {
    match step
    case HandlerBegin(stream) => BeginEndings(s, stream);
    case HandlerRead(d, piece) => ReadEndings(s, d, piece);
    case HandlerCancel(d) => FewerEndings(s, CancelStep(s, d));
    case HandlerEnd(d) => EndEndings(s, d);
  }

  lemma ProcessEndings(s: State, needsData: bool, reading: Reading)
    requires EndingsSound(s)
    ensures EndingsSound(ProcessStep(s, needsData, reading))
  {
    if s.phase == Draining && s.batch != [] {
      var s' := ProcessStep(s, needsData, reading);
      var q := s.batch + s.commands;
      assert q[0] == s.batch[0] && q[1..] == s'.batch + s'.commands;
      forall d | d in s'.handlers && s'.handlers[d].ended ensures Ending(q[1..], s'.tables, d) {
        EndCommandEnds(s.tables, q[0], needsData, reading, d);
        ProcessEnding(q, s.tables, s'.tables, d);
      }
    }
  }

  lemma EndCommandEnds(t: Tables, c: Command, needsData: bool, reading: Reading, d: nat)
    ensures d in ProcessCommand(t, c, needsData, reading).demands ==>
      (d in t.demands && c != EndDemand(d)) || Begins(c, d)
  {
    if d in ProcessCommand(t, c, needsData, reading).demands {
      ProcessedDemands(t, c, needsData, reading, d);
    }
  }

  /** Outside the command loop demands only end. */
  lemma FewerEndings(s: State, s': State)
    requires EndingsSound(s) && s'.handlers == s.handlers && s'.batch + s'.commands == s.batch + s.commands
    requires s'.tables.demands.Keys <= s.tables.demands.Keys
    ensures EndingsSound(s')
  {
  }

  lemma EngineEndings(s: State, step: Step)
    requires EndingsSound(s)
    ensures EndingsSound(EngineStep(s, step))
  {
    if Applies(s, step) {
      forall d | d in Operate(s.tables, step).demands ensures d in s.tables.demands {
        OperationNeeds(s.tables, step, d);
      }
      FewerEndings(s, EngineStep(s, step));
    }
  }

  lemma StepEndings(s: State, step: Step)
    requires Sound(s) && EndingsSound(s)
    ensures EndingsSound(Next(s, step))
  {
    if step.HandlerBegin? || step.HandlerRead? || step.HandlerCancel? || step.HandlerEnd? {
      HandlerEndings(s, step);
    } else if step.Process? {
      ProcessEndings(s, step.needsData, step.reading);
    } else if step.StartPoll? || step.PruneWaiters? || step.FinishPoll? {
      var s' := Next(s, step);
      assert s'.batch + s'.commands == s.batch + s.commands;
      FewerEndings(s, s');
    } else {
      EngineEndings(s, step);
    }
  }

  lemma {:induction false} RunEndings(s: State, steps: seq<Step>)
    requires Sound(s) && EndingsSound(s)
    ensures EndingsSound(Run(s, steps)) && Sound(Run(s, steps))
    decreases |steps|
  {
    if steps != [] {
      StepKeepsSound(s, steps[0]);
      StepEndings(s, steps[0]);
      RunEndings(Next(s, steps[0]), steps[1..]);
    }
  }

  /**
   Between polls of every run: a handler that has ended, and whose last command is no longer queued, has no
   active demand, so nothing is planned or kept alive for it.
   */
  lemma NoDemandOutlivesHandler(steps: seq<Step>, d: nat)
    requires var s := Run(INITIAL, steps);
      s.phase == Idle && d in s.handlers && s.handlers[d].ended && EndDemand(d) !in s.commands
    ensures d !in Run(INITIAL, steps).tables.demands
  {
    RunEndings(INITIAL, steps);
    var s := Run(INITIAL, steps);
    assert s.batch + s.commands == s.commands;
    assert Ending(s.commands, s.tables, d);
  }
}
