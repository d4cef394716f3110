/** What the torrent life cycle guarantees to its caller over whole runs. */
module TorrentGuarantees {
  import opened Common
  import opened TorrentLifecycle

  // ----- a removed torrent's resume file stays away -----

  /** The step sends a torrent to the session again. */
  predicate ReAdds(s: State, step: Step) {
    step.Add? && !HasHandle(s)
  }

  predicate NeverReAdds(s: State, steps: seq<Step>)
    decreases |steps|
  {
    steps == [] || (!ReAdds(s, steps[0]) && NeverReAdds(Next(s, steps[0]), steps[1..]))
  }

  /** No alert is about a torrent object other than `c`. */
  predicate OnlyAbout(alerts: seq<Alert>, c: nat) {
    alerts == [] || (
      && (alerts[0].Saved? ==> alerts[0].context == c)
      && (alerts[0].Added? ==> alerts[0].owner == c)
      && OnlyAbout(alerts[1..], c))
  }

  /** The torrent object `c` was removed on request and nothing can bring its file back. */
  predicate Closed(s: State, c: nat) {
    && c in s.explicit && !s.resumeFile && !s.unloading
    && (s.handle == None || s.handle == Some(c))
    && (s.session == None || s.session == Some(c))
    && (s.session == None ==> AddsOf(s.calls) == [])
    && OnlyAbout(s.alerts, c)
  }

  lemma {:induction false} OnlyAboutAppend(alerts: seq<Alert>, a: Alert, c: nat)
    requires OnlyAbout(alerts, c) && OnlyAbout([a], c)
    ensures OnlyAbout(alerts + [a], c)
  {
    if alerts == [] {
      assert alerts + [a] == [a];
    } else {
      var longer := alerts + [a];
      assert longer[0] == alerts[0] && longer[1..] == alerts[1..] + [a];
      OnlyAboutAppend(alerts[1..], a, c);
    }
  }

  lemma {:induction false} OwnedAlerts(alerts: seq<Alert>, c: nat)
    requires AllFit(Some(c), alerts) && Removals(alerts) == []
    ensures OnlyAbout(alerts, c) && OwnerAfter(Some(c), alerts) == Some(c)
  {
    if alerts != [] {
      OwnedAlerts(alerts[1..], c);
    }
  }

  lemma {:induction false} OwnerlessAlerts(alerts: seq<Alert>, c: nat)
    requires AllFit(None, alerts) && Removals(alerts) == [] && OwnerAfter(None, alerts) == None
    ensures OnlyAbout(alerts, c)
  {
    if alerts != [] {
      if alerts[0].Added? {
        OwnedAlerts(alerts[1..], alerts[0].owner);
      }
      OwnerlessAlerts(alerts[1..], c);
    }
  }

  /** The alerts before and after the removal of `c`, which ends with nothing in the session. */
  lemma {:induction false} LastAlerts(alerts: seq<Alert>, c: nat)
    requires AllFit(Some(c), alerts) && Removals(alerts) == [c] && OwnerAfter(Some(c), alerts) == None
    ensures OnlyAbout(alerts, c)
  {
    if alerts[0].Removed? {
      assert Removals(alerts) == [c] + Removals(alerts[1..]);
      OwnerlessAlerts(alerts[1..], c);
    } else {
      LastAlerts(alerts[1..], c);
    }
  }

  lemma RemovalCloses(s: State, request: nat)
    requires Sound(s) && RemovalAccepted(s)
    ensures Closed(RemoveTorrent(s, request), s.handle.value)
  {
    var c := s.handle.value;
    if Removals(s.alerts) == [] {
      OwnedAlerts(s.alerts, c);
    } else {
      LastAlerts(s.alerts, c);
      AddsAppend(s.calls, CallRemove(c));
    }
  }

  lemma ClosedExecute(s: State, succeeds: bool, c: nat)
    requires CallsSound(s) && Closed(s, c) && s.calls != []
    ensures Closed(ExecuteCall(s, succeeds), c)
  {
    match s.calls[0]
    case CallAdd(_) => ClosedAdd(s, succeeds, c);
    case CallSave(x) =>
      OnlyAboutAppend(s.alerts, SaveFailed(x), c);
      if s.session == Some(x) {
        OnlyAboutAppend(s.alerts, Saved(x), c);
      }
    case CallRemove(x) =>
      OnlyAboutAppend(s.alerts, Removed(x), c);
      OnlySavesFollow(s);
      NoAddsIff(s.calls[1..]);
  }

  /** An add that is still queued finds the removed torrent in the session. */
  lemma ClosedAdd(s: State, succeeds: bool, c: nat)
    requires CallsSound(s) && Closed(s, c) && s.calls != [] && s.calls[0].CallAdd?
    ensures Closed(ExecuteCall(s, succeeds), c)
  {
    assert AddsOf(s.calls)[0] == s.calls[0].context;
    OnlyAboutAppend(s.alerts, AddFailed(s.calls[0].context), c);
    OnlyAboutAppend(s.alerts, Added(s.calls[0].context, c), c);
  }

  lemma ClosedHandle(s: State, saves: bool, c: nat)
    requires Closed(s, c)
    ensures Closed(HandleAlert(s, saves), c)
  {
    if s.alerts != [] {
      assert OnlyAbout(s.alerts[1..], c);
      match s.alerts[0]
      case Added(_, _) =>
      case AddFailed(_) =>
      case Saved(_) =>
      case SaveFailed(_) =>
      case Removed(_) =>
    }
  }

  lemma ClosedStep(s: State, step: Step, c: nat)
    requires CallsSound(s) && RemovalSound(s) && Closed(s, c) && !ReAdds(s, step)
    ensures Closed(Next(s, step), c)
  {
    match step
    case Add =>
    case Remove(request) =>
    case Checkpoint =>
    case CacheUnload =>
    case Evict =>
    case Handle(saves) => ClosedHandle(s, saves, c);
    case Execute(succeeds) =>
      if s.calls != [] {
        ClosedExecute(s, succeeds, c);
      }
    case Destroy(_) =>
  }

  lemma {:induction false} ClosedRun(s: State, steps: seq<Step>, c: nat)
    requires Sound(s) && Closed(s, c) && NeverReAdds(s, steps)
    ensures Closed(Run(s, steps), c)
    decreases |steps|
  {
    if steps != [] {
      ClosedStep(s, steps[0], c);
      StepKeepsSound(s, steps[0]);
      ClosedRun(Next(s, steps[0]), steps[1..], c);
    }
  }

  /**
   After an explicit removal is accepted, no interleaving of late alerts, checkpoints, cache
   unloads and further commands brings the resume file back before the torrent is added again,
   even when a cache unload was already under way.
   */
  lemma RemovedFileStaysAway(before: seq<Step>, request: nat, after: seq<Step>)
    requires RemovalAccepted(Run(INITIAL, before))
    requires NeverReAdds(Next(Run(INITIAL, before), Remove(request)), after)
    ensures !Run(Next(Run(INITIAL, before), Remove(request)), after).resumeFile
  {
    var s := Run(INITIAL, before);
    RunsAreSound(INITIAL, before);
    RemovalCloses(s, request);
    RemoveKeepsSound(s, request);
    ClosedRun(Next(s, Remove(request)), after, s.handle.value);
  }

  // ----- the cache keeps the file -----

  /** The resume file goes away only when an explicit removal is accepted or completed. */
  lemma FileDeletedOnlyOnRequest(s: State, step: Step)
    requires RemovalSound(s) && ObjectsSound(s) && s.resumeFile && !Next(s, step).resumeFile
    ensures
      || (step.Remove? && RemovalAccepted(s))
      || (step.Handle? && s.alerts != [] && s.alerts[0].Removed? && s.pendingRemoval.Some?
          && s.alerts[0].context in s.explicit)
  {
    if step.Handle? && s.alerts != [] {
      assert s.alerts[0].Removed? ==> Removals(s.alerts) == [s.alerts[0].context] + Removals(s.alerts[1..]);
      if !s.alerts[0].Removed? {
        AlertKeepsFile(s.(alerts := s.alerts[1..]), s.alerts[0], step.saves);
      }
    } else if !step.Remove? {
      StepKeepsFile(s, step);
    }
  }

  lemma AlertKeepsFile(s: State, alert: Alert, saves: bool)
    requires s.resumeFile && !alert.Removed?
    ensures Dispatched(s, alert, saves).resumeFile
  {
    match alert
    case Added(_, _) =>
    case AddFailed(_) =>
    case Saved(_) =>
    case SaveFailed(_) =>
  }

  lemma StepKeepsFile(s: State, step: Step)
    requires s.resumeFile && !step.Remove? && (step.Handle? ==> s.alerts == [])
    ensures Next(s, step).resumeFile
  {
    match step
    case Add =>
    case Checkpoint =>
    case CacheUnload =>
    case Evict =>
    case Handle(_) =>
    case Execute(_) =>
    case Destroy(_) =>
  }

  lemma StaysUnrequested(s: State, step: Step)
    requires s.pendingRemoval == None && !step.Remove?
    ensures Next(s, step).pendingRemoval == None
  {
    match step
    case Add =>
    case Checkpoint =>
    case CacheUnload =>
    case Evict =>
    case Handle(saves) => HandlingRequestsNothing(s, saves);
    case Execute(_) =>
    case Destroy(_) =>
  }

  lemma HandlingRequestsNothing(s: State, saves: bool)
    requires s.pendingRemoval == None
    ensures HandleAlert(s, saves).pendingRemoval == None
  {
    if s.alerts != [] {
      match s.alerts[0]
      case Added(_, _) =>
      case AddFailed(_) =>
      case Saved(_) =>
      case SaveFailed(_) =>
      case Removed(_) =>
    }
  }

  /** While nobody asks for a removal, unloading by the cache keeps the resume file. */
  lemma {:induction false} CacheKeepsFile(s: State, steps: seq<Step>)
    requires Sound(s) && s.pendingRemoval == None && s.resumeFile
    requires forall i :: 0 <= i < |steps| ==> !steps[i].Remove?
    ensures Run(s, steps).resumeFile
    decreases |steps|
  {
    if steps != [] {
      StepKeepsSound(s, steps[0]);
      StaysUnrequested(s, steps[0]);
      if !Next(s, steps[0]).resumeFile {
        FileDeletedOnlyOnRequest(s, steps[0]);
      }
      CacheKeepsFile(Next(s, steps[0]), steps[1..]);
    }
  }

  // ----- every accepted removal is answered once -----

  /**
   At any time the answered requests are the accepted ones except at most one that is still under
   way, and when the session has nothing left to do and every alert is handled there is none.
   */
  lemma RemovalsAreAnsweredOnce(steps: seq<Step>)
    ensures var s := Run(INITIAL, steps);
      && s.accepted == s.answered + (if s.pendingRemoval.Some? then multiset{s.pendingRemoval.value} else multiset{})
      && (s.calls == [] && s.alerts == [] ==> s.accepted == s.answered)
  {
    RunsAreSound(INITIAL, steps);
  }

  // ----- the payload of a wanted torrent is not evicted -----

  /** The step asks for, or amounts to, letting the torrent go. */
  predicate Releases(s: State, step: Step) {
    || step.Remove? || step.CacheUnload?
    || (step == Execute(false) && s.calls != [] && s.calls[0].CallAdd?)
  }

  predicate NeverReleases(s: State, steps: seq<Step>)
    decreases |steps|
  {
    steps == [] || (!Releases(s, steps[0]) && NeverReleases(Next(s, steps[0]), steps[1..]))
  }

  predicate RemovalInFlight(s: State) {
    s.pendingRemoval.Some? || s.unloadRemoving
  }

  predicate PayloadPresent(s: State) {
    Protected(s) ==> s.payload
  }

  lemma PayloadPresentStep(s: State, step: Step)
    requires PipelineSound(s) && PayloadPresent(s)
    ensures PayloadPresent(Next(s, step))
  {
    if step.Handle? && s.alerts != [] && s.alerts[0].Added? {
      FirstAnswerIsPending(s);
    } else if !step.Add? {
      SameProtection(s, step);
    }
  }

  lemma FirstAnswerIsPending(s: State)
    requires PipelineSound(s) && s.alerts != [] && s.alerts[0].Added?
    ensures s.alerts[0].context in s.pending
  {
    assert AddPipeline(s)[0] == s.alerts[0].context;
  }

  /** The operation neither starts protecting the torrent nor touches its payload. */
  predicate LeavesPayload(s: State, s': State) {
    (Protected(s') ==> Protected(s)) && s'.payload == s.payload
  }

  lemma SaveLeavesPayload(s: State)
    ensures LeavesPayload(s, RequestSave(s))
  {
  }

  lemma BeginUnloadLeavesPayload(s: State, c: nat)
    ensures LeavesPayload(s, BeginCacheUnload(s, c))
  {
  }

  lemma UnloadLeavesPayload(s: State)
    ensures LeavesPayload(s, RequestCacheUnload(s))
  {
    var s' := s.(unloading := true);
    SaveLeavesPayload(s');
    if s.handle.Some? {
      BeginUnloadLeavesPayload(RequestSave(s'), s.handle.value);
    }
  }

  lemma SavedLeavesPayload(s: State, c: nat, written: bool)
    ensures LeavesPayload(s, HandleSaved(s, c, written)) && LeavesPayload(s, HandleSaveFailed(s, c))
  {
    var s' := s.(pendingSaves := s.pendingSaves - {c});
    BeginUnloadLeavesPayload(s', c);
    BeginUnloadLeavesPayload(s'.(resumeFile := s.resumeFile || written), c);
  }

  lemma AlertLeavesPayload(s: State, alert: Alert, saves: bool)
    requires !alert.Added?
    ensures LeavesPayload(s, Dispatched(s, alert, saves))
  {
    match alert
    case AddFailed(_) =>
    case Saved(c) => SavedLeavesPayload(s, c, saves);
    case SaveFailed(c) => SavedLeavesPayload(s, c, saves);
    case Removed(_) =>
  }

  lemma ExecuteLeavesPayload(s: State, succeeds: bool)
    ensures LeavesPayload(s, ExecuteCall(s, succeeds))
  {
    if s.calls != [] {
      PerformLeavesPayload(s.(calls := s.calls[1..]), s.calls[0], succeeds);
    }
  }

  lemma PerformLeavesPayload(s: State, call: Call, succeeds: bool)
    ensures LeavesPayload(s, Performed(s, call, succeeds))
  {
    match call
    case CallAdd(_) =>
    case CallSave(_) =>
    case CallRemove(_) =>
  }

  lemma RemoveLeavesPayload(s: State, request: nat)
    ensures LeavesPayload(s, RemoveTorrent(s, request))
  {
  }

  /** Only an add, or the answer to one, starts protecting a torrent. */
  lemma SameProtection(s: State, step: Step)
    requires !step.Add? && !(step.Handle? && s.alerts != [] && s.alerts[0].Added?)
    ensures Protected(Next(s, step)) ==> Protected(s)
    ensures Protected(s) ==> Next(s, step).payload == s.payload
  {
    match step
    case Remove(request) => RemoveLeavesPayload(s, request);
    case Checkpoint => SaveLeavesPayload(s);
    case CacheUnload => UnloadLeavesPayload(s);
    case Evict =>
    case Handle(saves) =>
      if s.alerts != [] {
        AlertLeavesPayload(s.(alerts := s.alerts[1..]), s.alerts[0], saves);
      }
    case Execute(succeeds) => ExecuteLeavesPayload(s, succeeds);
    case Destroy(_) =>
  }

  /** A torrent is in the session or about to be, and nothing queued removes it. */
  predicate Held(s: State) {
    !HasRemove(s.calls) && !s.unloading && (s.session.Some? || AddsOf(s.calls) != [])
  }

  lemma {:induction false} NewOwnerWasAdded(owner: Option<nat>, alerts: seq<Alert>)
    requires OwnerAfter(owner, alerts).Some? && OwnerAfter(owner, alerts) != owner
    ensures AddAnswers(alerts) != []
    decreases |alerts|
  {
    if alerts != [] && !alerts[0].Added? && !alerts[0].AddFailed? {
      NewOwnerWasAdded(OwnerNext(owner, alerts[0]), alerts[1..]);
    }
  }

  lemma HeldIsProtected(s: State)
    requires Sound(s) && Held(s)
    ensures Protected(s)
  {
    if s.session.Some? && s.session == s.handle {
      assert HasHandle(s);
    } else {
      if s.session.Some? {
        NewOwnerWasAdded(s.handle, s.alerts);
      }
      assert AddPipeline(s) != [];
      assert AddPipeline(s)[0] in s.pending;
    }
  }

  lemma SaveKeepsHeld(s: State)
    requires Held(s)
    ensures Held(RequestSave(s))
  {
    if s.handle.Some? {
      AddsAppend(s.calls, CallSave(s.handle.value));
      HasRemoveAppend(s.calls, CallSave(s.handle.value));
    }
  }

  lemma HeldHandle(s: State, saves: bool)
    requires Held(s)
    ensures Held(HandleAlert(s, saves))
  {
    if s.alerts != [] {
      var s' := s.(alerts := s.alerts[1..]);
      if s.alerts[0].Added? {
        SaveKeepsHeld(HandleAlert(s, false));
      } else {
        AlertKeepsHeld(s', s.alerts[0], saves);
      }
    }
  }

  lemma AlertKeepsHeld(s: State, alert: Alert, saves: bool)
    requires Held(s) && !alert.Added?
    ensures Held(Dispatched(s, alert, saves))
  {
    match alert
    case AddFailed(_) =>
    case Saved(_) =>
    case SaveFailed(_) =>
    case Removed(_) =>
  }

  lemma HeldStep(s: State, step: Step)
    requires Held(s) && !Releases(s, step)
    ensures Held(Next(s, step))
  {
    match step
    case Add =>
      AddsAppend(s.calls, CallAdd(s.nextContext));
      HasRemoveAppend(s.calls, CallAdd(s.nextContext));
    case Checkpoint => SaveKeepsHeld(s);
    case Evict =>
    case Handle(saves) => HeldHandle(s, saves);
    case Execute(succeeds) =>
      if s.calls != [] {
        HasRemoveRest(s.calls);
      }
    case Destroy(_) =>
  }

  lemma {:induction false} HeldRun(s: State, steps: seq<Step>)
    requires Sound(s) && PayloadPresent(s) && Held(s) && NeverReleases(s, steps)
    ensures Run(s, steps).payload
    decreases |steps|
  {
    if steps == [] {
      HeldIsProtected(s);
    } else {
      HeldStep(s, steps[0]);
      StepKeepsSound(s, steps[0]);
      PayloadPresentStep(s, steps[0]);
      HeldRun(Next(s, steps[0]), steps[1..]);
    }
  }

  lemma AddHolds(s: State)
    requires Sound(s) && (HasHandle(s) ==> !RemovalInFlight(s))
    ensures Held(AddTorrent(s))
  {
    AddsAppend(s.calls, CallAdd(s.nextContext));
    HasRemoveAppend(s.calls, CallAdd(s.nextContext));
    if HasHandle(s) {
      NotLeavingInSession(s);
    }
  }

  /** The torrent is leaving the session and nothing puts another one there. */
  predicate Doomed(s: State) {
    !s.unloading && (HasRemove(s.calls) || (s.session == None && AddsOf(s.calls) == []))
  }

  lemma DoomedExecute(s: State)
    requires CallsSound(s) && Doomed(s) && s.calls != []
    ensures Doomed(ExecuteCall(s, true)) 
    ensures |ExecuteCall(s, true).alerts| <= |s.alerts| + 1 && |ExecuteCall(s, true).calls| == |s.calls| - 1
  {
    HasRemoveRest(s.calls);
    match s.calls[0]
    case CallAdd(_) =>
      assert AddsOf(s.calls)[0] == s.calls[0].context;
      var i :| 0 <= i < |s.calls| && s.calls[i].CallRemove?;
    case CallSave(_) =>
      assert AddsOf(s.calls) == AddsOf(s.calls[1..]);
    case CallRemove(_) =>
      OnlySavesFollow(s);
      NoAddsIff(s.calls[1..]);
  }

  lemma DoomedHandle(s: State)
    requires Doomed(s) && s.alerts != []
    ensures Doomed(HandleAlert(s, false))
    ensures HandleAlert(s, false).calls == s.calls && |HandleAlert(s, false).alerts| == |s.alerts| - 1
  {
    match s.alerts[0]
    case Added(_, _) =>
    case AddFailed(_) =>
    case Saved(_) =>
    case SaveFailed(_) =>
    case Removed(_) =>
  }

  lemma DoomedEnd(s: State)
    requires Sound(s) && Doomed(s) && s.calls == [] && s.alerts == []
    ensures !Protected(s)
  {
    assert s.session == s.handle;
    assert AddPipeline(s) == [];
    assert s.pending == {};
  }

  function Work(s: State): nat {
    2 * |s.calls| + |s.alerts|
  }

  lemma DoomedStep(s: State) returns (step: Step)
    requires CallsSound(s) && Doomed(s) && Work(s) > 0
    ensures Doomed(Next(s, step)) && Work(Next(s, step)) < Work(s) && !Releases(s, step)
  {
    if s.calls != [] {
      DoomedExecute(s);
      step := Execute(true);
    } else {
      DoomedHandle(s);
      step := Handle(false);
    }
  }

  lemma FirstStep(s: State, step: Step, rest: seq<Step>)
    ensures Run(s, [step] + rest) == Run(Next(s, step), rest)
    ensures NeverReleases(s, [step] + rest) <==> !Releases(s, step) && NeverReleases(Next(s, step), rest)
  {
    assert ([step] + rest)[1..] == rest;
  }

  /** Left to itself, the session finishes the removal and the payload can be evicted. */
  lemma {:induction false} DoomedRun(s: State) returns (steps: seq<Step>)
    requires Sound(s) && Doomed(s)
    ensures NeverReleases(s, steps) && !Run(s, steps).payload
    decreases Work(s)
  {
    if Work(s) == 0 {
      DoomedEnd(s);
      FirstStep(s, Evict, []);
      steps := [Evict] + [];
    } else {
      var step := DoomedStep(s);
      StepKeepsSound(s, step);
      var rest := DoomedRun(Next(s, step));
      FirstStep(s, step, rest);
      steps := [step] + rest;
    }
  }

  /**
   An accepted add protects the payload, through every run in which nobody lets the torrent go
   again, exactly when it did not find a handle whose removal was already under way.
   */
  lemma AddProtectsPayloadIff(before: seq<Step>)
    ensures var s := Run(INITIAL, before);
      (HasHandle(s) ==> !RemovalInFlight(s)) <==>
      forall steps :: NeverReleases(Next(s, Add), steps) ==> Run(Next(s, Add), steps).payload
  {
    var s := Run(INITIAL, before);
    RunsAreSound(INITIAL, before);
    PayloadPresentRun(INITIAL, before);
    if HasHandle(s) ==> !RemovalInFlight(s) {
      forall steps | NeverReleases(Next(s, Add), steps) ensures Run(Next(s, Add), steps).payload {
        AddKeepsPayload(s, steps);
      }
    } else {
      AddKeepsSound(s);
      var steps := DoomedRun(Next(s, Add));
      assert NeverReleases(Next(s, Add), steps) && !Run(Next(s, Add), steps).payload;
    }
  }

  lemma AddKeepsPayload(s: State, steps: seq<Step>)
    requires Sound(s) && PayloadPresent(s) && (HasHandle(s) ==> !RemovalInFlight(s)) && NeverReleases(Next(s, Add), steps)
    ensures Run(Next(s, Add), steps).payload
  {
    AddHolds(s);
    AddKeepsSound(s);
    PayloadPresentStep(s, Add);
    HeldRun(Next(s, Add), steps);
  }

  /** The cache has unloaded a freshly added torrent and waits for the session to remove it. */
  const UNLOADING := Next(Next(Next(ADDED, CacheUnload), Execute(true)), Handle(true))
  const ADDED := Next(Next(Next(INITIAL, Add), Execute(true)), Handle(false))

  lemma AddedState()
    ensures ADDED == INITIAL.(nextContext := 1, handle := Some(0), payload := true, session := Some(0))
  {
    assert Next(INITIAL, Add).calls == [CallAdd(0)];
    assert Next(Next(INITIAL, Add), Execute(true)).alerts == [Added(0, 0)];
  }

  lemma UnloadingState()
    ensures UNLOADING == ADDED.(unloadRemoving := true, resumeFile := true, calls := [CallRemove(0)])
  {
    AddedState();
    assert Next(ADDED, CacheUnload).calls == [CallSave(0)];
    assert Next(Next(ADDED, CacheUnload), Execute(true)).alerts == [Saved(0)];
  }

  /** The failing case, concretely: the add comes while the cache's own removal is under way. */
  lemma AddDuringUnloadLosesPayload()
    ensures Run(INITIAL, [Add, Execute(true), Handle(false), CacheUnload, Execute(true), Handle(true)]) == UNLOADING
    ensures HasHandle(UNLOADING) && UNLOADING.unloadRemoving && UNLOADING.payload
    ensures !Run(UNLOADING, [Add, Execute(true), Handle(false), Evict]).payload
  {
    AddedState();
    UnloadingState();
    SixSteps(INITIAL, Add, Execute(true), Handle(false), CacheUnload, Execute(true), Handle(true));
    FourSteps(UNLOADING, Add, Execute(true), Handle(false), Evict);
    RemovedState();
  }

  lemma RemovedState()
    ensures !Next(Next(Next(Next(UNLOADING, Add), Execute(true)), Handle(false)), Evict).payload
  {
    AddedState();
    UnloadingState();
    assert Next(UNLOADING, Add) == UNLOADING;
    var executed := Next(UNLOADING, Execute(true));
    assert executed == UNLOADING.(calls := [], session := None, gone := {0}, alerts := [Removed(0)]);
    RemovedUnprotects(executed);
  }

  lemma RemovedUnprotects(s: State)
    requires s.alerts == [Removed(0)] && s.pending == {}
    ensures !Next(Next(s, Handle(false)), Evict).payload
  {
  }

  lemma FourSteps(s: State, a: Step, b: Step, c: Step, d: Step)
    ensures Run(s, [a, b, c, d]) == Next(Next(Next(Next(s, a), b), c), d)
  {
    TwoSteps(s, a, b, [c, d]);
    TwoSteps(Next(Next(s, a), b), c, d, []);
    assert [a, b, c, d] == [a, b] + [c, d] && [c, d] == [c, d] + [];
  }

  lemma TwoSteps(s: State, a: Step, b: Step, rest: seq<Step>)
    ensures Run(s, [a, b] + rest) == Run(Next(Next(s, a), b), rest)
  {
    FirstStep(s, a, [b] + rest);
    FirstStep(Next(s, a), b, rest);
    assert [a, b] + rest == [a] + ([b] + rest);
  }

  lemma SixSteps(s: State, a: Step, b: Step, c: Step, d: Step, e: Step, f: Step)
    ensures Run(s, [a, b, c, d, e, f]) == Next(Next(Next(Next(Next(Next(s, a), b), c), d), e), f)
  {
    TwoSteps(s, a, b, [c, d, e, f]);
    FourSteps(Next(Next(s, a), b), c, d, e, f);
    assert [a, b, c, d, e, f] == [a, b] + [c, d, e, f];
  }

  lemma {:induction false} PayloadPresentRun(s: State, steps: seq<Step>)
    requires Sound(s) && PayloadPresent(s)
    ensures PayloadPresent(Run(s, steps))
    decreases |steps|
  {
    if steps != [] {
      StepKeepsSound(s, steps[0]);
      PayloadPresentStep(s, steps[0]);
      PayloadPresentRun(Next(s, steps[0]), steps[1..]);
    }
  }
}
