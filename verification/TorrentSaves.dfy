/** When the resume file of a torrent exists, and what becomes of every save that is asked for. */
module TorrentSaves {
  import opened Common
  import opened TorrentLifecycle
  import opened TorrentGuarantees

  // ----- the resume file over whole runs -----

  /** The step writes the saved resume data of a torrent that was not removed on request. */
  predicate Writes(s: State, step: Step) {
    && step.Handle? && step.saves && s.alerts != [] && s.alerts[0].Saved?
    && s.alerts[0].context !in s.destroyed && s.alerts[0].context !in s.explicit
  }

  /** The step accepts a removal, or takes note that a torrent removed on request is gone. */
  predicate Deletes(s: State, step: Step) {
    || (step.Remove? && RemovalAccepted(s))
    || (step.Handle? && s.alerts != [] && s.alerts[0].Removed? && s.pendingRemoval.Some?)
  }

  lemma SavedWrites(s: State, c: nat)
    requires c !in s.destroyed && c !in s.explicit
    ensures HandleSaved(s, c, true).resumeFile
  {
  }

  lemma AlertWritesNothing(s: State, alert: Alert, saves: bool)
    requires !alert.Removed? && (alert.Saved? ==> !saves || alert.context in s.destroyed || alert.context in s.explicit)
    ensures Dispatched(s, alert, saves).resumeFile == s.resumeFile
  {
    match alert
    case Added(_, _) =>
    case AddFailed(_) =>
    case Saved(_) =>
    case SaveFailed(_) =>
  }

  lemma StepWritesNothing(s: State, step: Step)
    requires !step.Remove? && (step.Handle? ==> s.alerts == [])
    ensures Next(s, step).resumeFile == s.resumeFile
  {
    match step
    case Add =>
    case Checkpoint =>
    case CacheUnload =>
    case Evict =>
    case Handle(_) =>
    case Execute(succeeds) =>
      if s.calls != [] {
        PerformWritesNothing(s.(calls := s.calls[1..]), s.calls[0], succeeds);
      }
    case Destroy(_) =>
  }

  lemma PerformWritesNothing(s: State, call: Call, succeeds: bool)
    ensures Performed(s, call, succeeds).resumeFile == s.resumeFile
  {
    match call
    case CallAdd(_) =>
    case CallSave(_) =>
    case CallRemove(_) =>
  }

  lemma RemovalIsExplicitOrUnload(s: State)
    requires Sound(s) && s.alerts != [] && s.alerts[0].Removed?
    ensures s.pendingRemoval.Some? <==> !s.unloadRemoving
  {
    assert Removals(s.alerts) == [s.alerts[0].context] + Removals(s.alerts[1..]);
    assert Leaving(s);
  }

  /** One step: the file is there afterwards exactly if it was written now, or before and not deleted. */
  lemma FileAfterStep(s: State, step: Step)
    requires Sound(s)
    ensures Next(s, step).resumeFile <==> Writes(s, step) || (s.resumeFile && !Deletes(s, step))
  {
    if step.Handle? && s.alerts != [] {
      var s', a := s.(alerts := s.alerts[1..]), s.alerts[0];
      if a.Removed? {
        RemovalIsExplicitOrUnload(s);
        assert Next(s, step) == HandleRemoved(s', a.context);
      } else if Writes(s, step) {
        SavedWrites(s', a.context);
        assert Next(s, step) == HandleSaved(s', a.context, true);
      } else {
        AlertWritesNothing(s', a, step.saves);
        assert Next(s, step) == Dispatched(s', a, step.saves);
      }
    } else if step.Remove? {
    } else {
      StepWritesNothing(s, step);
    }
  }

  /** The state before step `k` of a run. */
  function At(steps: seq<Step>, k: nat): State
    requires k <= |steps|
  {
    Run(INITIAL, steps[..k])
  }

  lemma AtNext(steps: seq<Step>, k: nat)
    requires k < |steps|
    ensures At(steps, k + 1) == Next(At(steps, k), steps[k])
  {
    assert steps[..k + 1] == steps[..k] + [steps[k]];
    RunAppend(INITIAL, steps[..k], steps[k]);
  }

  /** The file was written at step `k` of the run, and no step up to `n` deleted it. */
  predicate WrittenAt(steps: seq<Step>, k: nat, n: nat)
    requires k < n <= |steps|
  {
    Writes(At(steps, k), steps[k]) && forall j :: k < j < n ==> !Deletes(At(steps, j), steps[j])
  }

  predicate Written(steps: seq<Step>, n: nat)
    requires n <= |steps|
  {
    exists k :: 0 <= k < n && WrittenAt(steps, k, n)
  }

  lemma {:induction false} FileUpTo(steps: seq<Step>, n: nat)
    requires n <= |steps|
    ensures At(steps, n).resumeFile <==> Written(steps, n)
  {
    if n > 0 {
      FileUpTo(steps, n - 1);
      FileNext(steps, n - 1);
      WrittenNext(steps, n - 1, n);
    }
  }

  lemma FileNext(steps: seq<Step>, n: nat)
    requires n < |steps|
    ensures At(steps, n + 1).resumeFile <==>
      Writes(At(steps, n), steps[n]) || (At(steps, n).resumeFile && !Deletes(At(steps, n), steps[n]))
  {
    AtNext(steps, n);
    RunsAreSound(INITIAL, steps[..n]);
    FileAfterStep(At(steps, n), steps[n]);
  }

  lemma WrittenNext(steps: seq<Step>, n: nat, m: nat)
    requires n < m == n + 1 <= |steps|
    ensures Written(steps, m) <==>
      Writes(At(steps, n), steps[n]) || (Written(steps, n) && !Deletes(At(steps, n), steps[n]))
  {
    if Written(steps, m) {
      var k :| 0 <= k < m && WrittenAt(steps, k, m);
      assert k < n ==> WrittenAt(steps, k, n) && !Deletes(At(steps, n), steps[n]);
    }
    if Writes(At(steps, n), steps[n]) {
      assert WrittenAt(steps, n, m);
    }
    if Written(steps, n) {
      var k :| 0 <= k < n && WrittenAt(steps, k, n);
      assert !Deletes(At(steps, n), steps[n]) ==> WrittenAt(steps, k, m);
    }
  }

  /**
   After every run the resume file exists exactly if a save of a torrent that was not removed on
   request was handled, and no removal was accepted or completed since.
   */
  lemma FileExactly(steps: seq<Step>)
    ensures Run(INITIAL, steps).resumeFile <==> exists k :: 0 <= k < |steps| && WrittenAt(steps, k, |steps|)
  {
    FileUpTo(steps, |steps|);
    assert steps[..|steps|] == steps;
  }

  lemma {:induction false} NothingRequested(steps: seq<Step>, k: nat)
    requires k <= |steps| && forall i :: 0 <= i < |steps| ==> !steps[i].Remove?
    ensures At(steps, k).pendingRemoval == None
  {
    if k > 0 {
      NothingRequested(steps, k - 1);
      AtNext(steps, k - 1);
      StaysUnrequested(At(steps, k - 1), steps[k - 1]);
    }
  }

  /** Without removals the file exists exactly if some save was handled. */
  lemma SavedFileExists(steps: seq<Step>)
    requires forall i :: 0 <= i < |steps| ==> !steps[i].Remove?
    ensures Run(INITIAL, steps).resumeFile <==> exists k :: 0 <= k < |steps| && Writes(At(steps, k), steps[k])
  {
    FileExactly(steps);
    if k :| 0 <= k < |steps| && Writes(At(steps, k), steps[k]) {
      forall j | k < j < |steps| ensures !Deletes(At(steps, j), steps[j]) {
        NothingRequested(steps, j);
      }
      assert WrittenAt(steps, k, |steps|);
    }
  }

  // ----- saves are answered -----

  /** The save of `c` is queued or answered, or `c` can no longer be reached. */
  predicate UnderWay(s: State, c: nat) {
    c in s.destroyed || CallSave(c) in s.calls || Saved(c) in s.alerts || SaveFailed(c) in s.alerts
  }

  /** Every save that is waited for is under way, and an unload waits for the save of its own torrent. */
  ghost predicate SavesSound(s: State) {
    && (forall c :: c in s.pendingSaves ==> UnderWay(s, c))
    && (s.unloading ==> s.handle.Some? && s.handle.value in s.pendingSaves)
  }

  /** Nothing that was under way is lost, and what is newly waited for is under way. */
  lemma SavesKept(s: State, s': State)
    requires SavesSound(s) && s.destroyed <= s'.destroyed
    requires forall c :: c in s'.pendingSaves ==> c in s.pendingSaves || UnderWay(s', c)
    requires forall c :: c in s.calls ==> c in s'.calls
    requires forall a :: a in s.alerts ==> a in s'.alerts
    requires s'.unloading ==> s'.handle.Some? && s'.handle.value in s'.pendingSaves
    ensures SavesSound(s')
  {
  }

  lemma SaveKeepsSaves(s: State)
    requires SavesSound(s)
    ensures SavesSound(RequestSave(s))
  {
    SavesKept(s, RequestSave(s));
  }

  /** A save that is asked for is under way at once. */
  lemma SaveIsUnderWay(s: State)
    requires SavesSound(s) && HasHandle(s) && s.handle.value !in s.explicit
    ensures s.handle.value in RequestSave(s).pendingSaves && UnderWay(RequestSave(s), s.handle.value)
  {
  }

  lemma RemoveKeepsSaves(s: State, request: nat)
    requires SavesSound(s)
    ensures SavesSound(RemoveTorrent(s, request))
  {
    SavesKept(s, RemoveTorrent(s, request));
  }

  lemma UnloadKeepsSaves(s: State)
    requires SavesSound(s)
    ensures SavesSound(RequestCacheUnload(s))
  {
    if !(s.pendingRemoval.Some? || s.unloading || s.unloadRemoving || !HasHandle(s)) {
      var asked := RequestSave(s.(unloading := true));
      if s.handle.value in asked.pendingSaves {
        SavesKept(s, asked);
      } else {
        SavesKept(s, BeginCacheUnload(asked, s.handle.value));
      }
    }
  }

  /** Taking the first alert loses only its own evidence. */
  lemma FirstAlertTaken(s: State, c: nat)
    requires SavesSound(s) && s.alerts != [] && c in s.pendingSaves
    ensures s.alerts[0] != Saved(c) && s.alerts[0] != SaveFailed(c) ==> UnderWay(s.(alerts := s.alerts[1..]), c)
  {
    assert s.alerts == [s.alerts[0]] + s.alerts[1..];
  }

  lemma AnswerKeepsSaves(s: State, saves: bool)
    requires SavesSound(s) && Sound(s) && s.alerts != [] && (s.alerts[0].Saved? || s.alerts[0].SaveFailed?)
    ensures SavesSound(HandleAlert(s, saves))
  {
    var c := s.alerts[0].context;
    var s' := HandleAlert(s, saves);
    forall x | x in s'.pendingSaves ensures UnderWay(s', x) {
      FirstAlertTaken(s, x);
    }
    UnloadEnds(s, saves);
  }

  /** The answer an unload waits for ends the waiting. */
  lemma UnloadEnds(s: State, saves: bool)
    requires SavesSound(s) && Sound(s) && s.alerts != [] && (s.alerts[0].Saved? || s.alerts[0].SaveFailed?)
    ensures !HandleAlert(s, saves).unloading
  {
    var c := s.alerts[0].context;
    if s.unloading {
      assert Fits(s.handle, s.alerts[0]);
      assert s.handle == Some(c) && !Leaving(s);
      assert c !in s.explicit && c !in s.destroyed;
    }
  }

  lemma RemovedKeepsSaves(s: State, saves: bool)
    requires SavesSound(s) && s.alerts != [] && s.alerts[0].Removed?
    ensures SavesSound(HandleAlert(s, saves))
  {
    var s' := HandleAlert(s, saves);
    forall x | x in s'.pendingSaves ensures UnderWay(s', x) {
      FirstAlertTaken(s, x);
    }
  }

  lemma AddedKeepsSaves(s: State, saves: bool)
    requires SavesSound(s) && Sound(s) && s.alerts != [] && (s.alerts[0].Added? || s.alerts[0].AddFailed?)
    ensures SavesSound(HandleAlert(s, saves))
  {
    var s' := HandleAlert(s, false);
    forall x | x in s'.pendingSaves ensures UnderWay(s', x) {
      FirstAlertTaken(s, x);
    }
    assert s.alerts[0].Added? ==> Fits(s.handle, s.alerts[0]);
    assert SavesSound(s');
    SaveKeepsSaves(s');
  }

  lemma HandleKeepsSaves(s: State, saves: bool)
    requires SavesSound(s) && Sound(s)
    ensures SavesSound(HandleAlert(s, saves))
  {
    if s.alerts != [] {
      match s.alerts[0]
      case Added(_, _) => AddedKeepsSaves(s, saves);
      case AddFailed(_) => AddedKeepsSaves(s, saves);
      case Saved(_) => AnswerKeepsSaves(s, saves);
      case SaveFailed(_) => AnswerKeepsSaves(s, saves);
      case Removed(_) => RemovedKeepsSaves(s, saves);
    }
  }

  lemma ExecuteKeepsSaves(s: State, succeeds: bool)
    requires SavesSound(s)
    ensures SavesSound(ExecuteCall(s, succeeds))
  {
    if s.calls != [] {
      PerformedAlerts(s, succeeds);
      FirstCallTaken(s, ExecuteCall(s, succeeds));
    }
  }

  lemma FirstCallTaken(s: State, s': State)
    requires SavesSound(s) && s.calls != [] && s'.calls == s.calls[1..] && s'.destroyed == s.destroyed
    requires s'.pendingSaves == s.pendingSaves && s'.unloading == s.unloading && s'.handle == s.handle
    requires |s'.alerts| >= |s.alerts| && s'.alerts[..|s.alerts|] == s.alerts
    requires s.calls[0].CallSave? ==> UnderWay(s', s.calls[0].context)
    ensures SavesSound(s')
  {
    assert s.calls == [s.calls[0]] + s.calls[1..];
    forall a | a in s.alerts ensures a in s'.alerts {
      assert a in s'.alerts[..|s.alerts|];
    }
  }

  /** Executing a call only adds alerts, and a save is answered unless its torrent is out of reach. */
  lemma PerformedAlerts(s: State, succeeds: bool)
    requires s.calls != []
    ensures var s' := ExecuteCall(s, succeeds);
      && s'.calls == s.calls[1..] && s'.destroyed == s.destroyed
      && s'.pendingSaves == s.pendingSaves && s'.unloading == s.unloading && s'.handle == s.handle
      && |s'.alerts| >= |s.alerts| && s'.alerts[..|s.alerts|] == s.alerts
      && (s.calls[0].CallSave? ==> UnderWay(s', s.calls[0].context))
  {
    var s' := s.(calls := s.calls[1..]);
    PerformKeepsAlerts(s', s.calls[0], succeeds);
    if s.calls[0].CallSave? {
      SaveIsAnswered(s', s.calls[0].context, succeeds);
    }
  }

  lemma PerformKeepsAlerts(s: State, call: Call, succeeds: bool)
    ensures var s' := Performed(s, call, succeeds);
      && s'.calls == s.calls && s'.destroyed == s.destroyed
      && s'.pendingSaves == s.pendingSaves && s'.unloading == s.unloading && s'.handle == s.handle
      && |s'.alerts| >= |s.alerts| && s'.alerts[..|s.alerts|] == s.alerts
  {
    match call
    case CallAdd(_) =>
    case CallSave(_) =>
    case CallRemove(_) =>
  }

  lemma SaveIsAnswered(s: State, c: nat, succeeds: bool)
    ensures var s' := Performed(s, CallSave(c), succeeds);
      c in s.destroyed || Saved(c) in s'.alerts || SaveFailed(c) in s'.alerts
  {
  }

  lemma StepKeepsSaves(s: State, step: Step)
    requires SavesSound(s) && Sound(s)
    ensures SavesSound(Next(s, step))
  {
    match step
    case Add => SavesKept(s, AddTorrent(s));
    case Remove(request) => RemoveKeepsSaves(s, request);
    case Checkpoint => SaveKeepsSaves(s);
    case CacheUnload => UnloadKeepsSaves(s);
    case Evict => SavesKept(s, Next(s, step));
    case Handle(saves) => HandleKeepsSaves(s, saves);
    case Execute(succeeds) => ExecuteKeepsSaves(s, succeeds);
    case Destroy(_) => SavesKept(s, Next(s, step));
  }

  lemma {:induction false} SavesOfRun(steps: seq<Step>, k: nat)
    requires k <= |steps|
    ensures Sound(At(steps, k)) && SavesSound(At(steps, k))
  {
    RunsAreSound(INITIAL, steps[..k]);
    if k > 0 {
      SavesOfRun(steps, k - 1);
      AtNext(steps, k - 1);
      StepKeepsSaves(At(steps, k - 1), steps[k - 1]);
    }
  }

  /**
   When the session has executed every call and every alert is handled, nothing is left half done:
   no add, removal or unload waits, and no torrent that can be reached waits for a save.
   */
  lemma NothingLeftHalfDone(steps: seq<Step>)
    requires var s := Run(INITIAL, steps); s.calls == [] && s.alerts == []
    ensures var s := Run(INITIAL, steps);
      && s.pending == {} && s.pendingRemoval == None && !s.unloading && !s.unloadRemoving
      && s.session == s.handle
      && forall c :: c in s.pendingSaves ==> c in s.destroyed
  {
    SavesOfRun(steps, |steps|);
    assert steps[..|steps|] == steps;
    var s := Run(INITIAL, steps);
    assert forall c :: c in s.pending ==> c in AddPipeline(s);
  }

  /** In every run a checkpoint asks for a save of a torrent that is there and not being removed. */
  lemma CheckpointSaves(steps: seq<Step>)
    requires var s := Run(INITIAL, steps); HasHandle(s) && s.pendingRemoval == None
    ensures var s := Run(INITIAL, steps);
      && s.handle.value in Next(s, Checkpoint).pendingSaves
      && UnderWay(Next(s, Checkpoint), s.handle.value) && s.handle.value !in s.explicit
  {
    SavesOfRun(steps, |steps|);
    assert steps[..|steps|] == steps;
    SaveIsUnderWay(Run(INITIAL, steps));
  }

  /** In every run an unload that the cache starts first waits for a save of the torrent. */
  lemma UnloadSavesFirst(steps: seq<Step>)
    requires var s := Run(INITIAL, steps); HasHandle(s) && !RemovalInFlight(s) && !s.unloading
    ensures var s := Run(INITIAL, steps);
      var s' := Next(s, CacheUnload);
      s'.unloading && s.handle.value in s'.pendingSaves && UnderWay(s', s.handle.value)
  {
    SavesOfRun(steps, |steps|);
    assert steps[..|steps|] == steps;
    UnloadAsksForSave(Run(INITIAL, steps));
  }

  lemma UnloadAsksForSave(s: State)
    requires Sound(s) && SavesSound(s) && HasHandle(s) && !RemovalInFlight(s) && !s.unloading
    ensures var s' := RequestCacheUnload(s);
      s'.unloading && s.handle.value in s'.pendingSaves && UnderWay(s', s.handle.value)
  {
    SaveIsUnderWay(s);
  }

  // ----- a torrent that is to leave does leave -----

  /** The torrent object has left the session, or it is the engine's and being unloaded or removed. */
  predicate OnWayOut(s: State, c: nat) {
    c in s.gone || (s.handle == Some(c) && (s.unloading || RemovalInFlight(s)))
  }

  /** The answer an unload waits for makes the engine remove the torrent. */
  lemma AnswerUnloads(s: State, saves: bool, c: nat)
    requires SavesSound(s) && Sound(s) && s.alerts != [] && (s.alerts[0].Saved? || s.alerts[0].SaveFailed?)
    requires s.unloading && s.handle == Some(c)
    ensures HandleAlert(s, saves).handle == Some(c) && HandleAlert(s, saves).unloadRemoving
    ensures CallRemove(c) in HandleAlert(s, saves).calls
  {
    assert Fits(s.handle, s.alerts[0]);
    assert !Leaving(s) && c !in s.explicit && c !in s.destroyed;
  }

  lemma AnswerKeepsLeaving(s: State, saves: bool, c: nat)
    requires SavesSound(s) && Sound(s) && OnWayOut(s, c)
    requires s.alerts != [] && (s.alerts[0].Saved? || s.alerts[0].SaveFailed?)
    ensures OnWayOut(HandleAlert(s, saves), c)
  {
    if s.handle == Some(c) && s.unloading {
      AnswerUnloads(s, saves, c);
    }
  }

  lemma HandleKeepsLeaving(s: State, saves: bool, c: nat)
    requires SavesSound(s) && Sound(s) && OnWayOut(s, c)
    ensures OnWayOut(HandleAlert(s, saves), c)
  {
    if s.alerts != [] {
      match s.alerts[0]
      case Added(_, _) => assert s.handle.Some? ==> Fits(s.handle, s.alerts[0]);
      case AddFailed(_) =>
      case Saved(_) => AnswerKeepsLeaving(s, saves, c);
      case SaveFailed(_) => AnswerKeepsLeaving(s, saves, c);
      case Removed(x) =>
        assert Fits(s.handle, s.alerts[0]);
        assert Removals(s.alerts) == [x] + Removals(s.alerts[1..]);
    }
  }

  lemma PerformKeepsLeaving(s: State, call: Call, succeeds: bool, c: nat)
    requires OnWayOut(s, c)
    ensures OnWayOut(Performed(s, call, succeeds), c)
  {
    match call
    case CallAdd(_) =>
    case CallSave(_) =>
    case CallRemove(_) =>
  }

  lemma StepKeepsLeaving(s: State, step: Step, c: nat)
    requires SavesSound(s) && Sound(s) && OnWayOut(s, c) && !step.Add?
    ensures OnWayOut(Next(s, step), c)
  {
    match step
    case Remove(_) =>
    case Checkpoint =>
    case CacheUnload =>
    case Evict =>
    case Handle(saves) => HandleKeepsLeaving(s, saves, c);
    case Execute(succeeds) =>
      if s.calls != [] {
        PerformKeepsLeaving(s.(calls := s.calls[1..]), s.calls[0], succeeds, c);
      }
    case Destroy(_) =>
  }

  lemma {:induction false} LeavingRun(s: State, steps: seq<Step>, c: nat)
    requires SavesSound(s) && Sound(s) && OnWayOut(s, c) && forall i :: 0 <= i < |steps| ==> !steps[i].Add?
    ensures SavesSound(Run(s, steps)) && Sound(Run(s, steps)) && OnWayOut(Run(s, steps), c)
    decreases |steps|
  {
    if steps != [] {
      StepKeepsSound(s, steps[0]);
      StepKeepsSaves(s, steps[0]);
      StepKeepsLeaving(s, steps[0], c);
      LeavingRun(Next(s, steps[0]), steps[1..], c);
    }
  }

  /**
   Unless the torrent is asked for again, an unload or removal that has begun runs to its end: once the session
   has executed every call and every alert is handled, the torrent has left the session and has no handle.
   */
  lemma LeavingCompletes(before: seq<Step>, after: seq<Step>, c: nat)
    requires var s := Run(INITIAL, before); s.handle == Some(c) && (s.unloading || RemovalInFlight(s))
    requires forall i :: 0 <= i < |after| ==> !after[i].Add?
    requires var s := Run(Run(INITIAL, before), after); s.calls == [] && s.alerts == []
    ensures var s := Run(Run(INITIAL, before), after); c in s.gone && s.handle != Some(c) && s.session != Some(c)
  {
    SavesOfRun(before, |before|);
    assert before[..|before|] == before;
    LeavingRun(Run(INITIAL, before), after, c);
    SettledIsOut(Run(Run(INITIAL, before), after), c);
  }

  lemma SettledIsOut(s: State, c: nat)
    requires SavesSound(s) && Sound(s) && OnWayOut(s, c) && s.calls == [] && s.alerts == []
    ensures c in s.gone && s.handle != Some(c) && s.session != Some(c)
  {
    assert OwnerAfter(s.handle, s.alerts) == s.handle;
  }
}
