/**
 The life of one torrent id: adding, explicit removal, unloading by the cache, saving resume
 data, and eviction of the payload.  The session executes the engine's calls in order on its own
 thread and answers with alerts, which the engine later handles in order.  A torrent object is
 named by the request context it was added with.
 */
module TorrentLifecycle {
  import opened Common

  datatype Call = CallAdd(context: nat) | CallSave(context: nat) | CallRemove(context: nat)

  /** `Added` carries the context whose torrent object the returned handle refers to. */
  datatype Alert =
    | Added(context: nat, owner: nat) | AddFailed(context: nat)
    | Saved(context: nat) | SaveFailed(context: nat) | Removed(context: nat)

  datatype State = State(
    nextContext: nat,
    pending: set<nat>,              // contexts whose add has not been answered
    handle: Option<nat>,
    explicit: set<nat>,             // contexts removed on request
    pendingSaves: set<nat>,
    pendingRemoval: Option<nat>,    // request to be answered by the removed event
    unloading: bool,                // the cache waits for a save before unloading
    unloadRemoving: bool,           // the cache has asked the session to remove the torrent
    resumeFile: bool,
    payload: bool,
    accepted: multiset<nat>,        // removal requests accepted so far
    answered: multiset<nat>,        // requests named by removed events so far
    calls: seq<Call>,
    alerts: seq<Alert>,
    session: Option<nat>,
    gone: set<nat>,                 // torrent objects taken out of the session
    destroyed: set<nat>)            // ... and no longer reachable through their handles

  const INITIAL := State(0, {}, None, {}, {}, None, false, false, false, false, multiset{}, multiset{}, [], [], None, {}, {})

  datatype Step =
    | Add
    | Remove(request: nat)
    | Checkpoint
    | CacheUnload
    | Evict
    | Handle(saves: bool)             // a new torrent is saved at once; saved data could be written
    | Execute(succeeds: bool)
    | Destroy(context: nat)

  predicate HasHandle(s: State) {
    s.handle.Some? && s.handle.value !in s.destroyed
  }

  // ----- the engine's operations -----

  /** A known torrent is only woken up; otherwise a new one is sent to the session. */
  function AddTorrent(s: State): State {
    if HasHandle(s) then s.(unloading := false)
    else s.(nextContext := s.nextContext + 1, pending := s.pending + {s.nextContext}, payload := true,
            calls := s.calls + [CallAdd(s.nextContext)])
  }

  predicate RemovalAccepted(s: State) {
    HasHandle(s) && s.pendingRemoval.None?
  }

  function RemoveTorrent(s: State, request: nat): State {
    if !RemovalAccepted(s) then s
    else
      var c := s.handle.value;
      s.(explicit := s.explicit + {c}, unloading := false, unloadRemoving := false,
         pendingRemoval := Some(request), accepted := s.accepted + multiset{request},
         calls := if s.unloadRemoving then s.calls else s.calls + [CallRemove(c)],
         pendingSaves := s.pendingSaves - {c}, resumeFile := false)
  }

  function RequestSave(s: State): State {
    if !HasHandle(s) || s.handle.value in s.explicit || s.handle.value in s.pendingSaves then s
    else s.(pendingSaves := s.pendingSaves + {s.handle.value}, calls := s.calls + [CallSave(s.handle.value)])
  }

  function BeginCacheUnload(s: State, c: nat): State {
    if !s.unloading || c in s.destroyed then s.(unloading := false)
    else s.(unloading := false, unloadRemoving := true, calls := s.calls + [CallRemove(c)])
  }

  function RequestCacheUnload(s: State): State {
    if s.pendingRemoval.Some? || s.unloading || s.unloadRemoving || !HasHandle(s) then s
    else
      var s' := RequestSave(s.(unloading := true));
      if s.handle.value in s'.pendingSaves then s' else BeginCacheUnload(s', s.handle.value)
  }

  predicate Protected(s: State) {
    HasHandle(s) || s.pending != {}
  }

  // ----- the engine's alert handlers -----

  function HandleAdded(s: State, a: Alert, saves: bool): State
    requires a.Added?
  {
    var s' := s.(handle := Some(a.owner), pending := s.pending - {a.context});
    if saves then RequestSave(s') else s'
  }

  /** Saved resume data is written to the file; when that fails, the file stays as it was. */
  function HandleSaved(s: State, c: nat, written: bool): State {
    if c in s.destroyed then s
    else
      var s' := s.(pendingSaves := s.pendingSaves - {c});
      if c in s.explicit then s'
      else
        var s'' := s'.(resumeFile := s.resumeFile || written);
        if s''.unloading then BeginCacheUnload(s'', c) else s''
  }

  function HandleSaveFailed(s: State, c: nat): State {
    if c in s.destroyed then s
    else
      var s' := s.(pendingSaves := s.pendingSaves - {c});
      if c in s.explicit then s' else if s'.unloading then BeginCacheUnload(s', c) else s'
  }

  function HandleRemoved(s: State, c: nat): State {
    s.(answered := if s.pendingRemoval.Some? then s.answered + multiset{s.pendingRemoval.value} else s.answered,
       pendingRemoval := None, unloading := false, unloadRemoving := false, handle := None,
       pendingSaves := s.pendingSaves - {c},
       resumeFile := s.resumeFile && s.unloadRemoving)
  }

  function Dispatched(s: State, alert: Alert, saves: bool): State {
    match alert
    case Added(_, _) => HandleAdded(s, alert, saves)
    case AddFailed(c) => s.(pending := s.pending - {c})
    case Saved(c) => HandleSaved(s, c, saves)
    case SaveFailed(c) => HandleSaveFailed(s, c)
    case Removed(c) => HandleRemoved(s, c)
  }

  function HandleAlert(s: State, saves: bool): State {
    if s.alerts == [] then s else Dispatched(s.(alerts := s.alerts[1..]), s.alerts[0], saves)
  }

  // ----- the session -----

  function Performed(s: State, call: Call, succeeds: bool): State {
    match call
    case CallAdd(c) =>
      if !succeeds then s.(alerts := s.alerts + [AddFailed(c)])
      else if s.session.Some? then s.(alerts := s.alerts + [Added(c, s.session.value)])
      else s.(session := Some(c), alerts := s.alerts + [Added(c, c)])
    case CallSave(c) =>
      if s.session == Some(c) && succeeds then s.(alerts := s.alerts + [Saved(c)])
      else if c in s.destroyed then s
      else s.(alerts := s.alerts + [SaveFailed(c)])
    case CallRemove(c) =>
      if s.session == Some(c) then s.(session := None, gone := s.gone + {c}, alerts := s.alerts + [Removed(c)]) else s
  }

  function ExecuteCall(s: State, succeeds: bool): State {
    if s.calls == [] then s else Performed(s.(calls := s.calls[1..]), s.calls[0], succeeds)
  }

  function Next(s: State, step: Step): State {
    match step
    case Add => AddTorrent(s)
    case Remove(request) => RemoveTorrent(s, request)
    case Checkpoint => if s.pendingRemoval.None? then RequestSave(s) else s
    case CacheUnload => RequestCacheUnload(s)
    case Evict => if Protected(s) then s else s.(payload := false)
    case Handle(saves) => HandleAlert(s, saves)
    case Execute(succeeds) => ExecuteCall(s, succeeds)
    case Destroy(c) => if c in s.gone then s.(destroyed := s.destroyed + {c}) else s
  }

  function Run(s: State, steps: seq<Step>): State
    decreases |steps|
  {
    if steps == [] then s else Run(Next(s, steps[0]), steps[1..])
  }

  // ----- what every step keeps -----

  /** The owner of the session's torrent as the engine will see it after handling the alerts. */
  function OwnerAfter(owner: Option<nat>, alerts: seq<Alert>): Option<nat>
    decreases |alerts|
  {
    if alerts == [] then owner
    else OwnerAfter(OwnerNext(owner, alerts[0]), alerts[1..])
  }

  function OwnerNext(owner: Option<nat>, a: Alert): Option<nat> {
    match a
    case Added(_, o) => Some(o)
    case Removed(_) => None
    case AddFailed(_) => owner
    case Saved(_) => owner
    case SaveFailed(_) => owner
  }

  /** The alert can be posted while `owner` is in the session. */
  predicate Fits(owner: Option<nat>, a: Alert) {
    match a
    case Added(c, o) => owner == Some(o) || (owner == None && c == o)
    case Removed(c) => owner == Some(c)
    case AddFailed(_) => true
    case Saved(c) => owner == Some(c)
    case SaveFailed(c) => owner == Some(c) || owner == None
  }

  predicate AllFit(owner: Option<nat>, alerts: seq<Alert>)
    decreases |alerts|
  {
    alerts == [] || (Fits(owner, alerts[0]) && AllFit(OwnerNext(owner, alerts[0]), alerts[1..]))
  }

  function AddsOf(calls: seq<Call>): seq<nat> {
    if calls == [] then []
    else (if calls[0].CallAdd? then [calls[0].context] else []) + AddsOf(calls[1..])
  }

  function AddAnswers(alerts: seq<Alert>): seq<nat> {
    if alerts == [] then []
    else (if alerts[0].Added? || alerts[0].AddFailed? then [alerts[0].context] else []) + AddAnswers(alerts[1..])
  }

  /** Adds on their way, answered ones first. */
  function AddPipeline(s: State): seq<nat> {
    AddAnswers(s.alerts) + AddsOf(s.calls)
  }

  ghost predicate PipelineSound(s: State) {
    && NoDuplicates(AddPipeline(s))
    && (forall c :: c in s.pending <==> c in AddPipeline(s))
    && (forall c :: c in s.pending || c in s.gone || c in s.explicit ==> c < s.nextContext)
    && (forall c :: c in s.gone || c in s.explicit ==> c !in s.pending)
    && (s.handle.Some? ==> s.handle.value !in s.pending && s.handle.value < s.nextContext)
    && (s.session.Some? ==> s.session.value !in AddsOf(s.calls) && s.session.value < s.nextContext)
  }

  predicate HasRemove(calls: seq<Call>) {
    exists i :: 0 <= i < |calls| && calls[i].CallRemove?
  }

  /** At most one removal is under way, and only saves are queued behind it. */
  ghost predicate RemoveLast(calls: seq<Call>) {
    forall i, j :: 0 <= i < j < |calls| && calls[i].CallRemove? ==> calls[j].CallSave?
  }

  /** A save is only queued for the torrent in the session, or with no add in between. */
  ghost predicate SavesTimely(calls: seq<Call>, session: Option<nat>) {
    && (forall i :: 0 <= i < |calls| && calls[i].CallSave? ==> session == None || session == Some(calls[i].context))
    && (forall i, j :: 0 <= i < j < |calls| && calls[i].CallAdd? && calls[j].CallSave? ==>
        session == Some(calls[j].context))
  }

  ghost predicate RemovesCurrent(s: State) {
    forall i :: 0 <= i < |s.calls| && s.calls[i].CallRemove? ==> s.session == Some(s.calls[i].context) == s.handle
  }

  ghost predicate CallsSound(s: State) {
    RemovesCurrent(s) && RemoveLast(s.calls) && SavesTimely(s.calls, s.session)
  }

  /** The torrent behind the handle is on its way out. */
  predicate Leaving(s: State) {
    s.handle.Some? && (HasRemove(s.calls) || s.handle.value in s.gone)
  }

  ghost predicate RemovalSound(s: State) {
    && (s.handle == None ==> s.pendingRemoval == None && !s.unloadRemoving && !s.unloading)
    && (s.handle.Some? ==> (Leaving(s) <==> s.pendingRemoval.Some? || s.unloadRemoving))
    && (s.handle.Some? ==> (s.handle.value in s.explicit <==> s.pendingRemoval.Some?))
    && !(s.pendingRemoval.Some? && s.unloadRemoving)
    && (s.unloading ==> s.pendingRemoval == None && !s.unloadRemoving)
    && s.accepted == s.answered + (if s.pendingRemoval.Some? then multiset{s.pendingRemoval.value} else multiset{})
  }

  function Removals(alerts: seq<Alert>): seq<nat> {
    if alerts == [] then [] else (if alerts[0].Removed? then [alerts[0].context] else []) + Removals(alerts[1..])
  }

  ghost predicate ObjectsSound(s: State) {
    && AllFit(s.handle, s.alerts) && OwnerAfter(s.handle, s.alerts) == s.session
    && s.destroyed <= s.gone
    && (s.session.Some? ==> s.session.value !in s.gone)
    && (Removals(s.alerts) == [] ||
        (s.handle.Some? && Removals(s.alerts) == [s.handle.value] && s.handle.value in s.gone))
    && (HasHandle(s) && s.session != s.handle ==> s.session == None && AddsOf(s.calls) == [])
  }

  ghost predicate Sound(s: State) {
    PipelineSound(s) && CallsSound(s) && RemovalSound(s) && ObjectsSound(s)
  }

  // ----- small facts -----

  lemma {:induction false} AddsAppend(calls: seq<Call>, call: Call)
    ensures AddsOf(calls + [call]) == AddsOf(calls) + (if call.CallAdd? then [call.context] else [])
  {
    if calls == [] {
      assert calls + [call] == [call];
    } else {
      var longer := calls + [call];
      assert longer[0] == calls[0] && longer[1..] == calls[1..] + [call];
      AddsAppend(calls[1..], call);
      assert AddsOf(longer) == (if calls[0].CallAdd? then [calls[0].context] else []) + AddsOf(longer[1..]);
    }
  }

  lemma {:induction false} AnswersAppend(alerts: seq<Alert>, a: Alert)
    ensures AddAnswers(alerts + [a]) == AddAnswers(alerts) + (if a.Added? || a.AddFailed? then [a.context] else [])
  {
    if alerts == [] {
      assert alerts + [a] == [a];
    } else {
      var longer := alerts + [a];
      assert longer[0] == alerts[0] && longer[1..] == alerts[1..] + [a];
      AnswersAppend(alerts[1..], a);
      assert AddAnswers(longer) ==
        (if alerts[0].Added? || alerts[0].AddFailed? then [alerts[0].context] else []) + AddAnswers(longer[1..]);
    }
  }

  lemma {:induction false} RemovalsAppend(alerts: seq<Alert>, a: Alert)
    ensures Removals(alerts + [a]) == Removals(alerts) + (if a.Removed? then [a.context] else [])
  {
    if alerts == [] {
      assert alerts + [a] == [a];
    } else {
      var longer := alerts + [a];
      assert longer[0] == alerts[0] && longer[1..] == alerts[1..] + [a];
      RemovalsAppend(alerts[1..], a);
      assert Removals(longer) == (if alerts[0].Removed? then [alerts[0].context] else []) + Removals(longer[1..]);
    }
  }

  lemma {:induction false} FitAppend(owner: Option<nat>, alerts: seq<Alert>, a: Alert)
    requires AllFit(owner, alerts) && Fits(OwnerAfter(owner, alerts), a)
    ensures AllFit(owner, alerts + [a])
    ensures OwnerAfter(owner, alerts + [a]) == OwnerNext(OwnerAfter(owner, alerts), a)
    decreases |alerts|
  {
    if alerts == [] {
      assert alerts + [a] == [a];
    } else {
      assert (alerts + [a])[1..] == alerts[1..] + [a];
      FitAppend(OwnerNext(owner, alerts[0]), alerts[1..], a);
    }
  }

  /** Without a removal among the alerts the handle's torrent is still the session's. */
  lemma {:induction false} OwnerStays(c: nat, alerts: seq<Alert>)
    requires AllFit(Some(c), alerts) && Removals(alerts) == []
    ensures OwnerAfter(Some(c), alerts) == Some(c)
    decreases |alerts|
  {
    if alerts != [] {
      OwnerStays(c, alerts[1..]);
    }
  }

  lemma {:induction false} NoAddsIff(calls: seq<Call>)
    ensures AddsOf(calls) == [] <==> forall i :: 0 <= i < |calls| ==> !calls[i].CallAdd?
    ensures forall i :: 0 <= i < |calls| && calls[i].CallAdd? ==> calls[i].context in AddsOf(calls)
  {
    if calls != [] {
      NoAddsIff(calls[1..]);
      forall i | 0 <= i < |calls| && calls[i].CallAdd? ensures calls[i].context in AddsOf(calls) {
        assert i > 0 ==> calls[1..][i - 1] == calls[i];
      }
      if forall i :: 0 <= i < |calls| ==> !calls[i].CallAdd? {
        assert forall i :: 0 <= i < |calls[1..]| ==> calls[1..][i] == calls[i + 1];
      }
    }
  }

  /** A torrent that is not leaving is the one in the session. */
  lemma NotLeavingInSession(s: State)
    requires Sound(s) && s.handle.Some? && s.handle.value !in s.gone
    ensures s.session == s.handle && Removals(s.alerts) == []
  {
    OwnerStays(s.handle.value, s.alerts);
  }

  lemma HasRemoveAppend(calls: seq<Call>, call: Call)
    ensures HasRemove(calls + [call]) <==> HasRemove(calls) || call.CallRemove?
  {
    assert forall i :: 0 <= i < |calls| ==> (calls + [call])[i] == calls[i];
    assert (calls + [call])[|calls|] == call;
    if HasRemove(calls) {
      var i :| 0 <= i < |calls| && calls[i].CallRemove?;
      assert (calls + [call])[i].CallRemove?;
    }
  }

  lemma HasRemoveRest(calls: seq<Call>)
    requires calls != []
    ensures HasRemove(calls) <==> calls[0].CallRemove? || HasRemove(calls[1..])
  {
    assert forall i :: 0 <= i < |calls[1..]| ==> calls[1..][i] == calls[i + 1];
    if HasRemove(calls) {
      var i :| 0 <= i < |calls| && calls[i].CallRemove?;
      assert i > 0 ==> calls[1..][i - 1].CallRemove?;
    }
  }

  // ----- the engine's operations keep the invariant -----

  lemma AddKeepsSound(s: State)
    requires Sound(s)
    ensures Sound(AddTorrent(s))
  {
    if !HasHandle(s) {
      AddsAppend(s.calls, CallAdd(s.nextContext));
      HasRemoveAppend(s.calls, CallAdd(s.nextContext));
      SentKeepsPipeline(s);
      SentKeepsCalls(s);
      SameRemoval(s, AddTorrent(s));
    } else {
      SameCalls(s, AddTorrent(s));
    }
  }

  lemma SentKeepsPipeline(s: State)
    requires PipelineSound(s) && !HasHandle(s)
    ensures PipelineSound(AddTorrent(s))
  {
    AddsAppend(s.calls, CallAdd(s.nextContext));
    assert AddPipeline(AddTorrent(s)) == AddPipeline(s) + [s.nextContext];
  }

  /** Without a live handle no removal and no save is queued that an add could come to follow. */
  lemma SentKeepsCalls(s: State)
    requires Sound(s) && !HasHandle(s)
    ensures CallsSound(AddTorrent(s))
  {
    assert forall i :: 0 <= i < |s.calls| ==> AddTorrent(s).calls[i] == s.calls[i];
  }

  lemma SaveKeepsSound(s: State)
    requires Sound(s)
    ensures Sound(RequestSave(s))
  {
    if HasHandle(s) {
      SaveCallKeepsCalls(s);
      SaveCallKeepsRest(s);
    }
  }

  lemma SaveCallKeepsRest(s: State)
    requires Sound(s) && HasHandle(s)
    ensures var s' := s.(calls := s.calls + [CallSave(s.handle.value)]);
      PipelineSound(s') && RemovalSound(s') && ObjectsSound(s')
  {
    var call := CallSave(s.handle.value);
    AddsAppend(s.calls, call);
    HasRemoveAppend(s.calls, call);
    SamePipeline(s, s.(calls := s.calls + [call]));
  }

  /** The pipeline is all that matters of the queues to its invariant. */
  lemma SamePipeline(s: State, s': State)
    requires PipelineSound(s) && AddsOf(s'.calls) == AddsOf(s.calls) && s'.alerts == s.alerts
    requires s'.pending == s.pending && s'.gone == s.gone && s'.explicit == s.explicit
    requires s'.handle == s.handle && s'.session == s.session && s'.nextContext == s.nextContext
    ensures PipelineSound(s') && AddPipeline(s') == AddPipeline(s)
  {
  }

  lemma SaveCallKeepsCalls(s: State)
    requires Sound(s) && HasHandle(s)
    ensures CallsSound(s.(calls := s.calls + [CallSave(s.handle.value)]))
  {
    NoAddsIff(s.calls);
  }

  /** Asking the session to remove the torrent behind the handle. */
  lemma RemoveCallKeepsCalls(s: State)
    requires Sound(s) && s.handle.Some? && !Leaving(s)
    ensures var s' := s.(calls := s.calls + [CallRemove(s.handle.value)]);
      PipelineSound(s') && CallsSound(s') && ObjectsSound(s') && Leaving(s')
  {
    var s', call := s.(calls := s.calls + [CallRemove(s.handle.value)]), CallRemove(s.handle.value);
    NotLeavingInSession(s);
    AddsAppend(s.calls, call);
    HasRemoveAppend(s.calls, call);
    SamePipeline(s, s');
    RemoveCallLast(s.calls, s.handle.value, s.session, s.handle);
    assert ObjectsSound(s');
  }

  /** A removal of the torrent in the session may be queued behind anything but another removal. */
  lemma RemoveCallLast(calls: seq<Call>, c: nat, session: Option<nat>, handle: Option<nat>)
    requires !HasRemove(calls) && SavesTimely(calls, session) && session == Some(c) == handle
    ensures var longer := calls + [CallRemove(c)];
      && RemoveLast(longer) && SavesTimely(longer, session)
      && forall i :: 0 <= i < |longer| && longer[i].CallRemove? ==> session == Some(longer[i].context) == handle
  {
    var longer := calls + [CallRemove(c)];
    assert forall i :: 0 <= i < |calls| ==> longer[i] == calls[i] && !calls[i].CallRemove?;
  }

  lemma RemoveKeepsSound(s: State, request: nat)
    requires Sound(s)
    ensures Sound(RemoveTorrent(s, request))
  {
    if RemovalAccepted(s) && !s.unloadRemoving {
      RemoveCallKeepsCalls(s);
    }
  }

  lemma BeginUnloadKeepsSound(s: State, c: nat)
    requires Sound(s) && (s.unloading ==> s.handle == Some(c))
    ensures Sound(BeginCacheUnload(s, c))
  {
    if s.unloading && c !in s.destroyed {
      RemoveCallKeepsCalls(s);
    }
  }

  lemma UnloadKeepsSound(s: State)
    requires Sound(s)
    ensures Sound(RequestCacheUnload(s))
  {
    if s.pendingRemoval == None && !s.unloading && !s.unloadRemoving && HasHandle(s) {
      SaveKeepsSound(s.(unloading := true));
      BeginUnloadKeepsSound(RequestSave(s.(unloading := true)), s.handle.value);
    }
  }

  // ----- alerts -----

  lemma PipelineRest(s: State, s': State)
    requires PipelineSound(s) && AddPipeline(s) != [] && AddPipeline(s') == AddPipeline(s)[1..]
    requires s'.pending == s.pending - {AddPipeline(s)[0]}
    ensures NoDuplicates(AddPipeline(s')) && forall c :: c in s'.pending <==> c in AddPipeline(s')
  {
    var p := AddPipeline(s);
    assert p == [p[0]] + p[1..];
    assert p[0] !in p[1..];
  }

  /** Taking note of an added torrent, before its resume data is asked for. */
  lemma AddedKeepsSound(s: State)
    requires Sound(s) && s.alerts != [] && s.alerts[0].Added?
    ensures Sound(HandleAlert(s, false))
  {
    var a, rest := s.alerts[0], s.alerts[1..];
    var s' := HandleAlert(s, false);
    assert AddPipeline(s) == [a.context] + AddPipeline(s');
    assert AddPipeline(s)[0] == a.context;
    assert a.context in AddPipeline(s);
    PipelineRest(s, s');
    if s.handle == None {
      assert a.context == a.owner;
      OwnerStays(a.owner, rest);
      assert s.session == s'.handle;
    }
    assert PipelineSound(s') && CallsSound(s') && RemovalSound(s') && ObjectsSound(s');
  }

  /** An alert about a save leaves the queue. */
  lemma SaveAnswerKeepsSound(s: State, saves: set<nat>, file: bool)
    requires Sound(s) && s.alerts != [] && (s.alerts[0].Saved? || s.alerts[0].SaveFailed?)
    ensures Sound(s.(alerts := s.alerts[1..], pendingSaves := saves, resumeFile := file))
  {
    var s' := s.(alerts := s.alerts[1..], pendingSaves := saves, resumeFile := file);
    assert AddPipeline(s') == AddPipeline(s);
    assert Removals(s.alerts) == Removals(s'.alerts);
    SameCalls(s, s');
    SameRemoval(s, s');
    assert ObjectsSound(s');
  }

  lemma AddFailedKeepsSound(s: State)
    requires Sound(s) && s.alerts != [] && s.alerts[0].AddFailed?
    ensures Sound(HandleAlert(s, false))
  {
    var s' := HandleAlert(s, false);
    assert AddPipeline(s) == [s.alerts[0].context] + AddPipeline(s');
    assert AddPipeline(s)[0] == s.alerts[0].context;
    PipelineRest(s, s');
    assert Removals(s.alerts) == Removals(s'.alerts);
    SameCalls(s, s');
    SameRemoval(s, s');
  }

  lemma RemovedKeepsSound(s: State)
    requires Sound(s) && s.alerts != [] && s.alerts[0].Removed?
    ensures Sound(HandleAlert(s, false))
  {
    RemovedKeepsPipeline(s);
    RemovedKeepsCalls(s);
    RemovedKeepsObjects(s);
    assert RemovalSound(HandleAlert(s, false));
  }

  lemma RemovedKeepsPipeline(s: State)
    requires PipelineSound(s) && s.alerts != [] && s.alerts[0].Removed?
    ensures PipelineSound(HandleAlert(s, false))
  {
    assert AddPipeline(HandleAlert(s, false)) == AddPipeline(s);
  }

  /** The torrent that left is not in the session, so no removal is queued. */
  lemma RemovedKeepsCalls(s: State)
    requires CallsSound(s) && ObjectsSound(s) && s.alerts != [] && s.alerts[0].Removed?
    ensures CallsSound(HandleAlert(s, false))
  {
    assert Removals(s.alerts) == [s.alerts[0].context] + Removals(s.alerts[1..]);
    forall i | 0 <= i < |s.calls| ensures !s.calls[i].CallRemove? {
    }
  }

  lemma RemovedKeepsObjects(s: State)
    requires ObjectsSound(s) && s.alerts != [] && s.alerts[0].Removed?
    ensures ObjectsSound(HandleAlert(s, false))
  {
    assert Removals(s.alerts) == [s.alerts[0].context] + Removals(s.alerts[1..]);
  }

  lemma SavedKeepsSound(s: State, c: nat, written: bool)
    requires Sound(s) && s.alerts != [] && s.alerts[0] == Saved(c)
    ensures Sound(HandleSaved(s.(alerts := s.alerts[1..]), c, written))
  {
    var file := s.resumeFile || written;
    SaveAnswerKeepsSound(s, s.pendingSaves, s.resumeFile);
    SaveAnswerKeepsSound(s, s.pendingSaves - {c}, s.resumeFile);
    SaveAnswerKeepsSound(s, s.pendingSaves - {c}, file);
    BeginUnloadKeepsSound(s.(alerts := s.alerts[1..], pendingSaves := s.pendingSaves - {c}, resumeFile := file), c);
  }

  lemma SaveFailedKeepsSound(s: State, c: nat)
    requires Sound(s) && s.alerts != [] && s.alerts[0] == SaveFailed(c)
    ensures Sound(HandleSaveFailed(s.(alerts := s.alerts[1..]), c))
  {
    SaveAnswerKeepsSound(s, s.pendingSaves, s.resumeFile);
    SaveAnswerKeepsSound(s, s.pendingSaves - {c}, s.resumeFile);
    BeginUnloadKeepsSound(s.(alerts := s.alerts[1..], pendingSaves := s.pendingSaves - {c}), c);
  }

  lemma AddedThenSaved(s: State)
    requires Sound(s) && s.alerts != [] && s.alerts[0].Added?
    ensures Sound(HandleAlert(s, true)) && Sound(HandleAlert(s, false))
  {
    AddedKeepsSound(s);
    SaveKeepsSound(HandleAlert(s, false));
  }

  lemma HandleKeepsSound(s: State, saves: bool)
    requires Sound(s)
    ensures Sound(HandleAlert(s, saves))
  {
    if s.alerts != [] {
      var s' := s.(alerts := s.alerts[1..]);
      match s.alerts[0]
      case Added(_, _) => AddedThenSaved(s);
      case AddFailed(_) =>
        AddFailedKeepsSound(s);
        assert HandleAlert(s, saves) == HandleAlert(s, false);
      case Saved(c) =>
        SavedKeepsSound(s, c, saves);
        assert HandleAlert(s, saves) == HandleSaved(s', c, saves);
      case SaveFailed(c) =>
        SaveFailedKeepsSound(s, c);
        assert HandleAlert(s, saves) == HandleSaveFailed(s', c);
      case Removed(_) =>
        RemovedKeepsSound(s);
        assert HandleAlert(s, saves) == HandleAlert(s, false);
    }
  }

  // ----- the session keeps the invariant -----

  lemma MiddleIsSingle(before: seq<nat>, c: nat, after: seq<nat>)
    requires NoDuplicates(before + ([c] + after))
    ensures c !in after && c in before + ([c] + after)
  {
    var all := before + ([c] + after);
    assert all[|before|] == c;
    forall i | 0 <= i < |after| ensures after[i] != c {
      assert all[|before| + 1 + i] == after[i];
    }
  }

  /** An answered add moves from the calls to the alerts. */
  lemma AnsweredPipeline(s: State, a: Alert)
    requires s.calls != [] && s.calls[0].CallAdd? && (a.Added? || a.AddFailed?) && a.context == s.calls[0].context
    ensures AddPipeline(s.(calls := s.calls[1..], alerts := s.alerts + [a])) == AddPipeline(s)
  {
    var c, rest := s.calls[0].context, AddsOf(s.calls[1..]);
    AnswersAppend(s.alerts, a);
    assert AddsOf(s.calls) == [c] + rest;
    assert (AddAnswers(s.alerts) + [c]) + rest == AddAnswers(s.alerts) + ([c] + rest);
  }

  lemma FirstAddIsPending(s: State)
    requires PipelineSound(s) && s.calls != [] && s.calls[0].CallAdd?
    ensures s.calls[0].context in s.pending && s.calls[0].context !in AddsOf(s.calls[1..])
  {
    assert AddsOf(s.calls) == [s.calls[0].context] + AddsOf(s.calls[1..]);
    MiddleIsSingle(AddAnswers(s.alerts), s.calls[0].context, AddsOf(s.calls[1..]));
  }

  lemma ExecuteAddKeepsPipeline(s: State, succeeds: bool)
    requires PipelineSound(s) && s.calls != [] && s.calls[0].CallAdd?
    ensures PipelineSound(ExecuteCall(s, succeeds)) && s.calls[0].context in s.pending
  {
    var s' := ExecuteCall(s, succeeds);
    AnsweredPipeline(s, s'.alerts[|s.alerts|]);
    FirstAddIsPending(s);
    assert AddPipeline(s') == AddPipeline(s);
    assert AddsOf(s.calls) == [s.calls[0].context] + AddsOf(s'.calls);
  }

  lemma CallsTail(s: State)
    requires CallsSound(s) && s.calls != []
    ensures CallsSound(s.(calls := s.calls[1..]))
  {
    assert forall i :: 0 <= i < |s.calls[1..]| ==> s.calls[1..][i] == s.calls[i + 1];
  }

  /** With nothing in the session, only adds are queued behind an add. */
  lemma OnlyAddsFollow(s: State)
    requires CallsSound(s) && s.calls != [] && s.calls[0].CallAdd? && s.session == None
    ensures forall i :: 0 <= i < |s.calls[1..]| ==> s.calls[1..][i].CallAdd?
  {
    assert forall i :: 0 <= i < |s.calls[1..]| ==> s.calls[1..][i] == s.calls[i + 1];
  }

  lemma OnlySavesFollow(s: State)
    requires CallsSound(s) && s.calls != [] && s.calls[0].CallRemove?
    ensures forall i :: 0 <= i < |s.calls[1..]| ==> s.calls[1..][i].CallSave?
  {
    assert forall i :: 0 <= i < |s.calls[1..]| ==> s.calls[1..][i] == s.calls[i + 1];
  }

  /** The queue, the handle and the session are all that matters to the invariant of the calls. */
  lemma SameCalls(s: State, s': State)
    requires CallsSound(s) && s'.calls == s.calls && s'.handle == s.handle && s'.session == s.session
    ensures CallsSound(s')
  {
  }

  lemma FirstAddKeepsCalls(s: State, c: nat)
    requires CallsSound(s) && s.calls != [] && s.calls[0].CallAdd? && s.session == None
    ensures CallsSound(s.(calls := s.calls[1..], session := Some(c)))
  {
    OnlyAddsFollow(s);
  }

  lemma RemovalKeepsCalls(s: State)
    requires CallsSound(s) && s.calls != [] && s.calls[0].CallRemove?
    ensures CallsSound(s.(calls := s.calls[1..], session := None))
  {
    OnlySavesFollow(s);
  }

  lemma ExecuteKeepsCalls(s: State, succeeds: bool)
    requires CallsSound(s) && s.calls != []
    ensures CallsSound(ExecuteCall(s, succeeds))
  {
    var s', rest := ExecuteCall(s, succeeds), s.(calls := s.calls[1..]);
    CallsTail(s);
    if s'.session == s.session {
      SameCalls(rest, s');
    } else if s.calls[0].CallAdd? {
      FirstAddKeepsCalls(s, s.calls[0].context);
      SameCalls(rest.(session := Some(s.calls[0].context)), s');
    } else {
      RemovalKeepsCalls(s);
      SameCalls(rest.(session := None), s');
    }
  }

  lemma ExecuteAddKeepsObjects(s: State, succeeds: bool)
    requires PipelineSound(s) && ObjectsSound(s) && s.calls != [] && s.calls[0].CallAdd?
    ensures ObjectsSound(ExecuteCall(s, succeeds))
  {
    var c := s.calls[0].context;
    FirstAddIsPending(s);
    assert AddsOf(s.calls)[0] == c;
    if !succeeds {
      AnswerKeepsObjects(s, AddFailed(c));
    } else if s.session.Some? {
      AnswerKeepsObjects(s, Added(c, s.session.value));
    } else {
      AnswerKeepsObjects(s, Added(c, c));
    }
  }

  /** The answer to an add is posted and the torrent it names is the session's. */
  lemma AnswerKeepsObjects(s: State, a: Alert)
    requires ObjectsSound(s) && s.calls != [] && s.calls[0].CallAdd? && AddsOf(s.calls) != []
    requires Fits(s.session, a) && (a.Added? || a.AddFailed?) && (a.Added? ==> a.owner !in s.gone)
    ensures ObjectsSound(s.(calls := s.calls[1..], alerts := s.alerts + [a], session := OwnerNext(s.session, a)))
  {
    FitAppend(s.handle, s.alerts, a);
    RemovalsAppend(s.alerts, a);
  }

  lemma ExecuteAddKeepsSound(s: State, succeeds: bool)
    requires Sound(s) && s.calls != [] && s.calls[0].CallAdd?
    ensures Sound(ExecuteCall(s, succeeds))
  {
    ExecuteAddKeepsPipeline(s, succeeds);
    ExecuteKeepsCalls(s, succeeds);
    ExecuteAddKeepsRemoval(s, succeeds);
    ExecuteAddKeepsObjects(s, succeeds);
  }

  lemma ExecuteAddKeepsRemoval(s: State, succeeds: bool)
    requires RemovalSound(s) && s.calls != [] && s.calls[0].CallAdd?
    ensures RemovalSound(ExecuteCall(s, succeeds))
  {
    HasRemoveRest(s.calls);
    SameRemoval(s, ExecuteCall(s, succeeds));
  }

  lemma SameRemoval(s: State, s': State)
    requires RemovalSound(s) && s'.handle == s.handle && s'.pendingRemoval == s.pendingRemoval
    requires s'.unloading == s.unloading && s'.unloadRemoving == s.unloadRemoving && s'.explicit == s.explicit
    requires s'.accepted == s.accepted && s'.answered == s.answered && s'.gone == s.gone
    requires HasRemove(s'.calls) <==> HasRemove(s.calls)
    ensures RemovalSound(s')
  {
  }

  lemma SaveCallDone(s: State)
    requires Sound(s) && s.calls != [] && s.calls[0].CallSave?
    ensures Sound(s.(calls := s.calls[1..]))
  {
    CallsTail(s);
    HasRemoveRest(s.calls);
    assert AddsOf(s.calls) == AddsOf(s.calls[1..]);
  }

  lemma PostSaveAnswer(s: State, a: Alert)
    requires Sound(s) && Fits(s.session, a) && (a.Saved? || a.SaveFailed?)
    ensures Sound(s.(alerts := s.alerts + [a]))
  {
    FitAppend(s.handle, s.alerts, a);
    RemovalsAppend(s.alerts, a);
    AnswersAppend(s.alerts, a);
    assert AddPipeline(s.(alerts := s.alerts + [a])) == AddPipeline(s);
  }

  lemma ExecuteSaveKeepsSound(s: State, succeeds: bool)
    requires Sound(s) && s.calls != [] && s.calls[0].CallSave?
    ensures Sound(ExecuteCall(s, succeeds))
  {
    var c, done := s.calls[0].context, s.(calls := s.calls[1..]);
    SaveCallDone(s);
    if s.session == Some(c) {
      PostSaveAnswer(done, Saved(c));
    }
    if c !in s.destroyed {
      PostSaveAnswer(done, SaveFailed(c));
    }
  }

  lemma ExecuteRemoveKeepsObjects(s: State, succeeds: bool)
    requires Sound(s) && s.calls != [] && s.calls[0].CallRemove?
    ensures ObjectsSound(ExecuteCall(s, succeeds))
  {
    var a := Removed(s.calls[0].context);
    assert s.session == Some(a.context) == s.handle;
    FitAppend(s.handle, s.alerts, a);
    RemovalsAppend(s.alerts, a);
    OnlySavesFollow(s);
    NoAddsIff(s.calls[1..]);
  }

  lemma ExecuteRemoveKeepsSound(s: State, succeeds: bool)
    requires Sound(s) && s.calls != [] && s.calls[0].CallRemove?
    ensures Sound(ExecuteCall(s, succeeds))
  {
    ExecuteRemoveKeepsObjects(s, succeeds);
    ExecuteKeepsCalls(s, succeeds);
    HasRemoveRest(s.calls);
    AnswersAppend(s.alerts, Removed(s.calls[0].context));
    assert AddsOf(s.calls) == AddsOf(s.calls[1..]);
    assert AddPipeline(ExecuteCall(s, succeeds)) == AddPipeline(s);
  }

  lemma ExecuteKeepsSound(s: State, succeeds: bool)
    requires Sound(s)
    ensures Sound(ExecuteCall(s, succeeds))
  {
    if s.calls != [] {
      match s.calls[0]
      case CallAdd(_) => ExecuteAddKeepsSound(s, succeeds);
      case CallSave(_) => ExecuteSaveKeepsSound(s, succeeds);
      case CallRemove(_) => ExecuteRemoveKeepsSound(s, succeeds);
    }
  }

  lemma DestroyKeepsSound(s: State, c: nat)
    requires Sound(s) && c in s.gone
    ensures Sound(s.(destroyed := s.destroyed + {c}))
  {
  }

  /** Every step, in every interleaving of the engine and the session, keeps the invariant. */
  lemma StepKeepsSound(s: State, step: Step)
    requires Sound(s)
    ensures Sound(Next(s, step))
  {
    match step
    case Add => AddKeepsSound(s);
    case Remove(request) => RemoveKeepsSound(s, request);
    case Checkpoint => SaveKeepsSound(s);
    case CacheUnload => UnloadKeepsSound(s);
    case Evict => assert Sound(s.(payload := false));
    case Handle(saves) => HandleKeepsSound(s, saves);
    case Execute(succeeds) => ExecuteKeepsSound(s, succeeds);
    case Destroy(c) =>
      if c in s.gone {
        DestroyKeepsSound(s, c);
      }
  }

  lemma {:induction false} RunsAreSound(s: State, steps: seq<Step>)
    requires Sound(s)
    ensures Sound(Run(s, steps))
    decreases |steps|
  {
    if steps != [] {
      StepKeepsSound(s, steps[0]);
      RunsAreSound(Next(s, steps[0]), steps[1..]);
    }
  }

  lemma {:induction false} RunAppend(s: State, steps: seq<Step>, step: Step)
    ensures Run(s, steps + [step]) == Next(Run(s, steps), step)
    decreases |steps|
  {
    if steps == [] {
      assert ([] + [step])[1..] == [];
    } else {
      assert (steps + [step])[1..] == steps[1..] + [step];
      RunAppend(Next(s, steps[0]), steps[1..], step);
    }
  }
}
