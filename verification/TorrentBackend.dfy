/**
 The backend's records for all torrents: maps and sets keyed by torrent id or by request context,
 changed in place by commands, by loops over all torrents and by the handlers of alerts.  Seen
 from one torrent, everything the backend does is a step of that torrent's life cycle or nothing.
 */
module TorrentBackend {
  import opened Common
  import opened TorrentLifecycle

  type Id = nat

  /** A request context: the torrent it was made for, and its number among that torrent's. */
  datatype Context = Context(id: Id, number: nat)

  datatype Records = Records(
    next: map<Id, nat>,
    pending: set<Context>,
    handles: map<Id, nat>,            // the context each handle carries
    explicit: set<Context>,
    pendingSaves: set<Context>,
    pendingRemovals: map<Id, nat>,
    pendingUnloads: set<Id>,
    cacheRemovals: set<Id>,
    resumeFiles: set<Id>,
    payloads: set<Id>,
    accepted: map<Id, multiset<nat>>,
    answered: map<Id, multiset<nat>>,
    calls: map<Id, seq<Call>>,
    alerts: map<Id, seq<Alert>>,
    session: map<Id, nat>,
    gone: set<Context>,
    destroyed: set<Context>)

  const NO_RECORDS :=
    Records(map[], {}, map[], {}, {}, map[], {}, {}, {}, {}, map[], map[], map[], map[], map[], {}, {})

  // ----- the records of one torrent -----

  function Get<T>(m: map<Id, T>, id: Id, missing: T): T {
    if id in m then m[id] else missing
  }

  function Find<T>(m: map<Id, T>, id: Id): Option<T> {
    if id in m then Some(m[id]) else None
  }

  function Numbers(s: set<Context>, id: Id): set<nat> {
    set c | c in s && c.id == id :: c.number
  }

  function Project(r: Records, id: Id): State {
    State(Get(r.next, id, 0), Numbers(r.pending, id), Find(r.handles, id), Numbers(r.explicit, id),
          Numbers(r.pendingSaves, id), Find(r.pendingRemovals, id), id in r.pendingUnloads, id in r.cacheRemovals,
          id in r.resumeFiles, id in r.payloads, Get(r.accepted, id, multiset{}), Get(r.answered, id, multiset{}),
          Get(r.calls, id, []), Get(r.alerts, id, []), Find(r.session, id), Numbers(r.gone, id), Numbers(r.destroyed, id))
  }

  lemma NumbersOf(s: set<Context>, id: Id, n: nat)
    ensures Numbers(s + {Context(id, n)}, id) == Numbers(s, id) + {n}
    ensures Numbers(s - {Context(id, n)}, id) == Numbers(s, id) - {n}
    ensures n in Numbers(s, id) <==> Context(id, n) in s
    ensures forall other :: other != id ==>
      && Numbers(s + {Context(id, n)}, other) == Numbers(s, other)
      && Numbers(s - {Context(id, n)}, other) == Numbers(s, other)
  {
    assert forall m: nat :: m in Numbers(s, id) <==> Context(id, m) in s;
    forall other | other != id
      ensures Numbers(s + {Context(id, n)}, other) == Numbers(s, other)
      ensures Numbers(s - {Context(id, n)}, other) == Numbers(s, other)
    {
      assert forall m: nat :: m in Numbers(s, other) <==> Context(other, m) in s;
    }
  }

  /** Only torrent `id` changed, and its records now are `s`. */
  ghost predicate Becomes(r: Records, r': Records, id: Id, s: State) {
    Project(r', id) == s && forall other :: other != id ==> Project(r', other) == Project(r, other)
  }

  lemma BecomesTwice(r: Records, r': Records, r'': Records, id: Id, s: State, s': State)
    requires Becomes(r, r', id, s) && Becomes(r', r'', id, s')
    ensures Becomes(r, r'', id, s')
  {
  }

  // ----- what all torrents do together -----

  datatype GlobalStep =
    | AddFor(id: Id)
    | RemoveFor(id: Id, request: nat)
    | CheckpointAll
    | UnloadAll(warm: set<Id>)
    | EvictAll(victims: set<Id>)
    | HandleFor(id: Id, saves: bool)
    | ExecuteFor(id: Id, succeeds: bool)
    | DestroyContext(context: Context)

  /** The step as torrent `id` sees it. */
  function Local(step: GlobalStep, id: Id): Option<Step> {
    match step
    case AddFor(i) => if i == id then Some(Add) else None
    case RemoveFor(i, request) => if i == id then Some(Remove(request)) else None
    case CheckpointAll => Some(Checkpoint)
    case UnloadAll(warm) => if id in warm then Some(CacheUnload) else None
    case EvictAll(victims) => if id in victims then Some(Evict) else None
    case HandleFor(i, saves) => if i == id then Some(Handle(saves)) else None
    case ExecuteFor(i, succeeds) => if i == id then Some(Execute(succeeds)) else None
    case DestroyContext(c) => if c.id == id then Some(Destroy(c.number)) else None
  }

  function After(s: State, step: Option<Step>): State {
    if step.Some? then Next(s, step.value) else s
  }

  /** For every torrent the step is its own step of the life cycle, or nothing. */
  ghost predicate Refines(r: Records, step: GlobalStep, r': Records) {
    forall id :: Project(r', id) == After(Project(r, id), Local(step, id))
  }

  /** The steps of a run that concern torrent `id`. */
  function LocalRun(steps: seq<GlobalStep>, id: Id): seq<Step> {
    if steps == [] then []
    else
      var last := Local(steps[|steps| - 1], id);
      LocalRun(steps[..|steps| - 1], id) + (if last.Some? then [last.value] else [])
  }

  /** A change of one torrent's records that is its step of the life cycle. */
  lemma OneTorrentRefines(r: Records, r': Records, step: GlobalStep, id: Id, s: State)
    requires Becomes(r, r', id, s) && s == After(Project(r, id), Local(step, id))
    requires forall other :: other != id ==> Local(step, other) == None
    ensures Refines(r, step, r')
  {
  }

  lemma AddRefines(r: Records, r': Records, id: Id)
    requires Becomes(r, r', id, TorrentLifecycle.AddTorrent(Project(r, id)))
    ensures Refines(r, AddFor(id), r')
  {
    OneTorrentRefines(r, r', AddFor(id), id, TorrentLifecycle.AddTorrent(Project(r, id)));
  }

  lemma RemoveRefines(r: Records, r': Records, id: Id, request: nat)
    requires Becomes(r, r', id, TorrentLifecycle.RemoveTorrent(Project(r, id), request))
    ensures Refines(r, RemoveFor(id, request), r')
  {
    OneTorrentRefines(r, r', RemoveFor(id, request), id, TorrentLifecycle.RemoveTorrent(Project(r, id), request));
  }

  lemma HandleRefines(r: Records, r': Records, id: Id, saves: bool)
    requires Becomes(r, r', id, HandleAlert(Project(r, id), saves))
    ensures Refines(r, HandleFor(id, saves), r')
  {
    OneTorrentRefines(r, r', HandleFor(id, saves), id, HandleAlert(Project(r, id), saves));
  }

  lemma ExecuteRefines(r: Records, r': Records, id: Id, succeeds: bool)
    requires Becomes(r, r', id, ExecuteCall(Project(r, id), succeeds))
    ensures Refines(r, ExecuteFor(id, succeeds), r')
  {
    OneTorrentRefines(r, r', ExecuteFor(id, succeeds), id, ExecuteCall(Project(r, id), succeeds));
  }

  // ----- single changes, seen from each torrent -----

  function WithCall(r: Records, id: Id, call: Call): Records {
    r.(calls := r.calls[id := Get(r.calls, id, []) + [call]])
  }

  lemma CallProjects(r: Records, id: Id, call: Call)
    ensures Becomes(r, WithCall(r, id, call), id, Project(r, id).(calls := Project(r, id).calls + [call]))
  {
  }

  /** The records with a new context for the torrent. */
  function Noted(r: Records, id: Id): Records {
    var n := Get(r.next, id, 0);
    r.(next := r.next[id := n + 1], pending := r.pending + {Context(id, n)}, payloads := r.payloads + {id})
  }

  lemma AddProjects(r: Records, id: Id)
    ensures var n := Get(r.next, id, 0);
      Becomes(r, Noted(r, id), id,
              Project(r, id).(nextContext := n + 1, pending := Project(r, id).pending + {n}, payload := true))
  {
    NumbersOf(r.pending, id, Get(r.next, id, 0));
  }

  lemma SaveProjects(r: Records, id: Id, n: nat)
    ensures Becomes(r, WithCall(r.(pendingSaves := r.pendingSaves + {Context(id, n)}), id, CallSave(n)),
                    id, Project(r, id).(pendingSaves := Project(r, id).pendingSaves + {n},
                                        calls := Project(r, id).calls + [CallSave(n)]))
    ensures Context(id, n) in r.pendingSaves <==> n in Project(r, id).pendingSaves
    ensures Context(id, n) in r.explicit <==> n in Project(r, id).explicit
    ensures Context(id, n) in r.destroyed <==> n in Project(r, id).destroyed
  {
    NumbersOf(r.pendingSaves, id, n);
    NumbersOf(r.explicit, id, n);
    NumbersOf(r.destroyed, id, n);
  }

  /** The records of a removal before the session is asked. */
  function Removing(r: Records, id: Id, request: nat): Records
    requires id in r.handles
  {
    var c := Context(id, r.handles[id]);
    r.(explicit := r.explicit + {c}, pendingSaves := r.pendingSaves - {c},
       pendingUnloads := r.pendingUnloads - {id}, cacheRemovals := r.cacheRemovals - {id},
       resumeFiles := r.resumeFiles - {id}, pendingRemovals := r.pendingRemovals[id := request],
       accepted := r.accepted[id := Get(r.accepted, id, multiset{}) + multiset{request}])
  }

  lemma RemoveProjects(r: Records, id: Id, request: nat)
    requires id in r.handles
    ensures var s, n := Project(r, id), r.handles[id];
      Becomes(r, Removing(r, id, request), id,
              s.(explicit := s.explicit + {n}, pendingSaves := s.pendingSaves - {n}, unloading := false,
                 unloadRemoving := false, resumeFile := false, pendingRemoval := Some(request),
                 accepted := s.accepted + multiset{request}))
  {
    NumbersOf(r.explicit, id, r.handles[id]);
    NumbersOf(r.pendingSaves, id, r.handles[id]);
  }

  lemma RemovedProjects(r: Records, id: Id, request: nat)
    requires id in r.handles && RemovalAccepted(Project(r, id))
    ensures var r' := Removing(r, id, request);
      Becomes(r, if id in r.cacheRemovals then r' else WithCall(r', id, CallRemove(r.handles[id])), id,
              TorrentLifecycle.RemoveTorrent(Project(r, id), request))
  {
    RemoveProjects(r, id, request);
    CallProjects(Removing(r, id, request), id, CallRemove(r.handles[id]));
  }

  lemma UnloadProjects(r: Records, c: Context)
    ensures var s, r' := Project(r, c.id), r.(pendingUnloads := r.pendingUnloads - {c.id});
      && Becomes(r, r', c.id, s.(unloading := false))
      && Becomes(r, WithCall(r'.(cacheRemovals := r'.cacheRemovals + {c.id}), c.id, CallRemove(c.number)), c.id,
                 s.(unloading := false, unloadRemoving := true, calls := s.calls + [CallRemove(c.number)]))
      && (c in r.destroyed <==> c.number in s.destroyed)
  {
    NumbersOf(r.destroyed, c.id, c.number);
    var r' := r.(pendingUnloads := r.pendingUnloads - {c.id}, cacheRemovals := r.cacheRemovals + {c.id});
    assert Becomes(r, r', c.id, Project(r, c.id).(unloading := false, unloadRemoving := true));
    CallProjects(r', c.id, CallRemove(c.number));
  }

  // ----- the same step for several torrents -----

  lemma Rest(all: set<Id>, todo: set<Id>)
    ensures todo == {} ==> all - todo == all
    ensures todo == all ==> all - todo == {}
  {
  }

  lemma OneLess(all: set<Id>, todo: set<Id>, id: Id)
    requires id in todo && todo <= all
    ensures all - (todo - {id}) == (all - todo) + {id} && todo - {id} <= all && |todo - {id}| < |todo|
  {
    assert todo == (todo - {id}) + {id};
  }

  function Checkpointed(s: State): State {
    if s.pendingRemoval.None? then RequestSave(s) else s
  }

  /** The torrents in `done` have been asked to unload, the others have not changed. */
  ghost predicate UnloadAsked(r: Records, r': Records, done: set<Id>) {
    forall id :: Project(r', id) == if id in done then RequestCacheUnload(Project(r, id)) else Project(r, id)
  }

  lemma UnloadAskedNext(r: Records, r': Records, r'': Records, done: set<Id>, id: Id)
    requires UnloadAsked(r, r', done) && id !in done && Becomes(r', r'', id, RequestCacheUnload(Project(r', id)))
    ensures UnloadAsked(r, r'', done + {id})
  {
  }

  lemma UnloadRefines(r: Records, r': Records, warm: set<Id>)
    requires UnloadAsked(r, r', warm)
    ensures Refines(r, UnloadAll(warm), r')
  {
  }

  /** The torrents in `done` have had their checkpoint, the others have not changed. */
  ghost predicate SaveAsked(r: Records, r': Records, done: set<Id>) {
    forall id :: Project(r', id) == if id in done then Checkpointed(Project(r, id)) else Project(r, id)
  }

  lemma SaveAskedNext(r: Records, r': Records, r'': Records, done: set<Id>, id: Id)
    requires SaveAsked(r, r', done) && id !in done && Becomes(r', r'', id, Checkpointed(Project(r', id)))
    ensures SaveAsked(r, r'', done + {id})
  {
  }

  /** A torrent without a handle ignores checkpoints. */
  lemma CheckpointRefines(r: Records, r': Records)
    requires SaveAsked(r, r', r.handles.Keys)
    ensures Refines(r, CheckpointAll, r')
  {
  }

  // ----- alerts -----

  function WithAlerts(r: Records, id: Id, alerts: seq<Alert>): Records {
    r.(alerts := r.alerts[id := alerts])
  }

  lemma AlertsProject(r: Records, id: Id, alerts: seq<Alert>)
    ensures Becomes(r, WithAlerts(r, id, alerts), id, Project(r, id).(alerts := alerts))
  {
  }

  function WithCalls(r: Records, id: Id, calls: seq<Call>): Records {
    r.(calls := r.calls[id := calls])
  }

  lemma CallsProject(r: Records, id: Id, calls: seq<Call>)
    ensures Becomes(r, WithCalls(r, id, calls), id, Project(r, id).(calls := calls))
  {
  }

  lemma SettledProjects(r: Records, c: Context)
    ensures var s := Project(r, c.id);
      && Becomes(r, r.(pendingSaves := r.pendingSaves - {c}), c.id, s.(pendingSaves := s.pendingSaves - {c.number}))
      && (c in r.destroyed <==> c.number in s.destroyed) && (c in r.explicit <==> c.number in s.explicit)
  {
    NumbersOf(r.pendingSaves, c.id, c.number);
    NumbersOf(r.destroyed, c.id, c.number);
    NumbersOf(r.explicit, c.id, c.number);
  }

  /** The removal is over and whoever asked for it is answered. */
  function Answered(r: Records, id: Id): Records {
    r.(answered := if id in r.pendingRemovals
                   then r.answered[id := Get(r.answered, id, multiset{}) + multiset{r.pendingRemovals[id]}]
                   else r.answered,
       pendingRemovals := r.pendingRemovals - {id}, pendingUnloads := r.pendingUnloads - {id},
       cacheRemovals := r.cacheRemovals - {id})
  }

  /** The records without the torrent that was removed. */
  function Forgotten(r: Records, c: Context): Records {
    Answered(r, c.id).(
      handles := r.handles - {c.id}, pendingSaves := r.pendingSaves - {c},
      resumeFiles := if c.id in r.cacheRemovals then r.resumeFiles else r.resumeFiles - {c.id})
  }

  lemma AnsweredProjects(r: Records, id: Id)
    ensures var s := Project(r, id);
      Becomes(r, Answered(r, id), id,
              s.(answered := if s.pendingRemoval.Some? then s.answered + multiset{s.pendingRemoval.value} else s.answered,
                 pendingRemoval := None, unloading := false, unloadRemoving := false))
  {
  }

  lemma ForgottenProjects(r: Records, c: Context)
    ensures Becomes(r, Forgotten(r, c), c.id, HandleRemoved(Project(r, c.id), c.number))
  {
    AnsweredProjects(r, c.id);
    NumbersOf(r.pendingSaves, c.id, c.number);
  }

  lemma AddedProjects(r: Records, c: Context, owner: nat)
    ensures var s := Project(r, c.id);
      Becomes(r, r.(handles := r.handles[c.id := owner], pending := r.pending - {c}), c.id,
              s.(handle := Some(owner), pending := s.pending - {c.number}))
    ensures var s := Project(r, c.id);
      Becomes(r, r.(pending := r.pending - {c}), c.id, s.(pending := s.pending - {c.number}))
  {
    NumbersOf(r.pending, c.id, c.number);
  }

  lemma PendingIff(pending: set<Context>, id: Id)
    ensures Numbers(pending, id) != {} <==> exists c :: c in pending && c.id == id
  {
    if c :| c in pending && c.id == id {
      assert c.number in Numbers(pending, id);
    }
  }

  lemma EvictProjects(r: Records, victims: set<Id>, kept: set<Id>)
    requires forall id :: id in kept <==> Protected(Project(r, id))
    ensures Refines(r, EvictAll(victims), r.(payloads := r.payloads - (victims - kept)))
  {
  }

  /** The removed events an alert gives rise to, by the request they name. */
  function EventsOf(s: State, alert: Alert): seq<nat> {
    if alert.Removed? then [if s.pendingRemoval.Some? then s.pendingRemoval.value else 0] else []
  }

  lemma GoneProjects(r: Records, id: Id, n: nat)
    ensures Becomes(r, r.(session := r.session - {id}, gone := r.gone + {Context(id, n)}), id,
                    Project(r, id).(session := None, gone := Project(r, id).gone + {n}))
  {
    NumbersOf(r.gone, id, n);
  }

  lemma DestroyRefines(r: Records, c: Context)
    ensures Refines(r, DestroyContext(c), if c in r.gone then r.(destroyed := r.destroyed + {c}) else r)
  {
    NumbersOf(r.gone, c.id, c.number);
    NumbersOf(r.destroyed, c.id, c.number);
    var r' := if c in r.gone then r.(destroyed := r.destroyed + {c}) else r;
    var s := Project(r, c.id);
    OneTorrentRefines(r, r', DestroyContext(c), c.id,
                      if c.number in s.gone then s.(destroyed := s.destroyed + {c.number}) else s);
  }

  class Backend {
    var next: map<Id, nat>
    var pending: set<Context>
    var handles: map<Id, nat>
    var explicit: set<Context>
    var pendingSaves: set<Context>
    var pendingRemovals: map<Id, nat>
    var pendingUnloads: set<Id>
    var cacheRemovals: set<Id>
    var resumeFiles: set<Id>
    var payloads: set<Id>
    var calls: map<Id, seq<Call>>
    var alerts: map<Id, seq<Alert>>
    // the session's own part
    var session: map<Id, nat>
    var gone: set<Context>
    var destroyed: set<Context>
    ghost var accepted: map<Id, multiset<nat>>
    ghost var answered: map<Id, multiset<nat>>

    ghost function Snapshot(): Records
      reads this
    {
      Records(next, pending, handles, explicit, pendingSaves, pendingRemovals, pendingUnloads, cacheRemovals,
              resumeFiles, payloads, accepted, answered, calls, alerts, session, gone, destroyed)
    }

    ghost function View(id: Id): State
      reads this
    {
      Project(Snapshot(), id)
    }

    constructor ()
      ensures Snapshot() == NO_RECORDS
    {
      next, pending, handles, explicit, pendingSaves := map[], {}, map[], {}, {};
      pendingRemovals, pendingUnloads, cacheRemovals, resumeFiles, payloads := map[], {}, {}, {}, {};
      calls, alerts, destroyed, accepted, answered, session, gone := map[], map[], {}, map[], map[], map[], {};
    }

    predicate Live(id: Id)
      reads this
    {
      id in handles && Context(id, handles[id]) !in destroyed
    }

    lemma LiveIsHandle(id: Id)
      ensures Live(id) <==> HasHandle(View(id))
    {
      if id in handles {
        NumbersOf(destroyed, id, handles[id]);
      }
    }

    method Call(id: Id, call: Call)
      modifies this`calls
      ensures Snapshot() == WithCall(old(Snapshot()), id, call)
    {
      calls := calls[id := Get(calls, id, []) + [call]];
    }

    /** A known torrent is woken up; another one is sent to the session. */
    method AddTorrent(id: Id)
      modifies this
      ensures Refines(old(Snapshot()), AddFor(id), Snapshot())
    {
      ghost var r := Snapshot();
      LiveIsHandle(id);
      if Live(id) {
        CancelUnload(id);
      } else {
        SendAdd(id);
      }
      AddRefines(r, Snapshot(), id);
    }

    method CancelUnload(id: Id)
      modifies this`pendingUnloads
      ensures Becomes(old(Snapshot()), Snapshot(), id, old(View(id)).(unloading := false))
      ensures pendingUnloads == old(pendingUnloads) - {id}
    {
      pendingUnloads := pendingUnloads - {id};
    }

    method SendAdd(id: Id)
      modifies this`next, this`pending, this`payloads, this`calls
      ensures var s := old(View(id));
        Becomes(old(Snapshot()), Snapshot(), id,
                s.(nextContext := s.nextContext + 1, pending := s.pending + {s.nextContext}, payload := true,
                   calls := s.calls + [CallAdd(s.nextContext)]))
    {
      ghost var r, s := Snapshot(), View(id);
      var n := NoteAdd(id);
      ghost var r', s' := Snapshot(), View(id);
      Queue(id, CallAdd(n));
      BecomesTwice(r, r', Snapshot(), id, s', s'.(calls := s'.calls + [CallAdd(n)]));
    }

    method Queue(id: Id, call: Call)
      modifies this`calls
      ensures Becomes(old(Snapshot()), Snapshot(), id, old(View(id)).(calls := old(View(id)).calls + [call]))
    {
      CallProjects(Snapshot(), id, call);
      Call(id, call);
    }

    method NoteAdd(id: Id) returns (n: nat)
      modifies this`next, this`pending, this`payloads
      ensures var s := old(View(id));
        && n == s.nextContext
        && Becomes(old(Snapshot()), Snapshot(), id, s.(nextContext := n + 1, pending := s.pending + {n}, payload := true))
    {
      ghost var r := Snapshot();
      AddProjects(r, id);
      n := NewContext(id);
      assert Snapshot() == Noted(r, id);
    }

    method NewContext(id: Id) returns (n: nat)
      modifies this`next, this`pending, this`payloads
      ensures n == Get(old(next), id, 0) && next == old(next)[id := n + 1]
      ensures pending == old(pending) + {Context(id, n)} && payloads == old(payloads) + {id}
    {
      n := Get(next, id, 0);
      next := next[id := n + 1];
      payloads := payloads + {id};
      pending := pending + {Context(id, n)};
    }

    method RequestResumeSave(id: Id)
      modifies this`pendingSaves, this`calls
      ensures Becomes(old(Snapshot()), Snapshot(), id, RequestSave(old(View(id))))
    {
      LiveIsHandle(id);
      if !Live(id) {
        return;
      }
      var c := Context(id, handles[id]);
      SaveProjects(Snapshot(), id, c.number);
      if c in explicit || c in pendingSaves {
        return;
      }
      pendingSaves := pendingSaves + {c};
      Call(id, CallSave(c.number));
    }

    /** Refused without a live handle or with a removal pending; the session is not asked twice. */
    method RemoveTorrent(id: Id, request: nat) returns (refused: bool)
      modifies this
      ensures Refines(old(Snapshot()), RemoveFor(id, request), Snapshot())
      ensures refused <==> !RemovalAccepted(old(View(id)))
    {
      ghost var r := Snapshot();
      LiveIsHandle(id);
      refused := !Live(id) || id in pendingRemovals;
      if !refused {
        MarkRemoved(id, request);
      }
      RemoveRefines(r, Snapshot(), id, request);
    }

    method MarkRemoved(id: Id, request: nat)
      requires id in handles && HasHandle(View(id)) && id !in pendingRemovals
      modifies this
      ensures Becomes(old(Snapshot()), Snapshot(), id, TorrentLifecycle.RemoveTorrent(old(View(id)), request))
    {
      ghost var r := Snapshot();
      var c, asked := Context(id, handles[id]), id in cacheRemovals;
      RemovedProjects(r, id, request);
      NoteRemoval(c, request);
      assert Snapshot() == Removing(r, id, request);
      if !asked {
        Call(id, CallRemove(c.number));
      }
    }

    method NoteRemoval(c: Context, request: nat)
      requires c.id in handles && handles[c.id] == c.number
      modifies this`explicit, this`pendingSaves, this`pendingUnloads, this`cacheRemovals
      modifies this`resumeFiles, this`pendingRemovals, this`accepted
      ensures explicit == old(explicit) + {c} && pendingSaves == old(pendingSaves) - {c}
      ensures pendingUnloads == old(pendingUnloads) - {c.id} && cacheRemovals == old(cacheRemovals) - {c.id}
      ensures resumeFiles == old(resumeFiles) - {c.id} && pendingRemovals == old(pendingRemovals)[c.id := request]
      ensures accepted == old(accepted)[c.id := Get(old(accepted), c.id, multiset{}) + multiset{request}]
    {
      explicit := explicit + {c};
      pendingUnloads := pendingUnloads - {c.id};
      cacheRemovals := cacheRemovals - {c.id};
      pendingRemovals := pendingRemovals[c.id := request];
      accepted := accepted[c.id := Get(accepted, c.id, multiset{}) + multiset{request}];
      pendingSaves := pendingSaves - {c};
      resumeFiles := resumeFiles - {c.id};
    }

    /** An unloading torrent is taken out of the session. */
    method BeginUnload(c: Context)
      modifies this`pendingUnloads, this`cacheRemovals, this`calls
      ensures Becomes(old(Snapshot()), Snapshot(), c.id, BeginCacheUnload(old(View(c.id)), c.number))
    {
      UnloadProjects(Snapshot(), c);
      var unloading := c.id in pendingUnloads;
      CancelUnload(c.id);
      if unloading && c !in destroyed {
        cacheRemovals := cacheRemovals + {c.id};
        Call(c.id, CallRemove(c.number));
      }
    }

    method MarkUnloading(id: Id)
      modifies this`pendingUnloads
      ensures Becomes(old(Snapshot()), Snapshot(), id, old(View(id)).(unloading := true))
    {
      pendingUnloads := pendingUnloads + {id};
    }

    /** Unloading begins at once unless resume data was asked for. */
    method UnloadAfterSave(id: Id)
      requires HasHandle(View(id)) && id in handles
      modifies this`pendingUnloads, this`cacheRemovals, this`calls, this`pendingSaves
      ensures var s := RequestSave(old(View(id)));
        Becomes(old(Snapshot()), Snapshot(), id,
                if handles[id] in s.pendingSaves then s else BeginCacheUnload(s, handles[id]))
    {
      ghost var r, s := Snapshot(), RequestSave(View(id));
      RequestResumeSave(id);
      ghost var r' := Snapshot();
      NumbersOf(pendingSaves, id, handles[id]);
      if Context(id, handles[id]) !in pendingSaves {
        BeginUnload(Context(id, handles[id]));
        BecomesTwice(r, r', Snapshot(), id, s, BeginCacheUnload(s, handles[id]));
      }
    }

    method RequestUnload(id: Id)
      modifies this`pendingUnloads, this`cacheRemovals, this`calls, this`pendingSaves
      ensures Becomes(old(Snapshot()), Snapshot(), id, RequestCacheUnload(old(View(id))))
    {
      LiveIsHandle(id);
      if id in pendingRemovals || id in pendingUnloads || id in cacheRemovals || !Live(id) {
        return;
      }
      ghost var r, s := Snapshot(), View(id);
      MarkUnloading(id);
      ghost var r' := Snapshot();
      UnloadAfterSave(id);
      BecomesTwice(r, r', Snapshot(), id, s.(unloading := true), RequestCacheUnload(s));
    }

    /** The cache asks every warm torrent to unload. */
    method RequestCacheUnloads(warm: set<Id>)
      modifies this`pendingUnloads, this`cacheRemovals, this`calls, this`pendingSaves
      ensures Refines(old(Snapshot()), UnloadAll(warm), Snapshot())
    {
      ghost var r := Snapshot();
      UnloadLoop(warm);
      UnloadRefines(r, Snapshot(), warm);
    }

    method UnloadOne(id: Id, ghost r: Records, ghost done: set<Id>)
      requires UnloadAsked(r, Snapshot(), done) && id !in done
      modifies this`pendingUnloads, this`cacheRemovals, this`calls, this`pendingSaves
      ensures UnloadAsked(r, Snapshot(), done + {id})
    {
      ghost var before := Snapshot();
      RequestUnload(id);
      UnloadAskedNext(r, before, Snapshot(), done, id);
    }

    method UnloadLoop(warm: set<Id>)
      modifies this`pendingUnloads, this`cacheRemovals, this`calls, this`pendingSaves
      ensures UnloadAsked(old(Snapshot()), Snapshot(), warm)
    {
      ghost var r := Snapshot();
      var todo := warm;
      Rest(warm, {});
      Rest(warm, warm);
      while todo != {}
        invariant todo <= warm && UnloadAsked(r, Snapshot(), warm - todo)
        decreases |todo|
      {
        var id :| id in todo;
        UnloadOne(id, r, warm - todo);
        OneLess(warm, todo, id);
        todo := todo - {id};
      }
    }

    /** Every torrent that is not being removed is asked for its resume data. */
    method RunCheckpoint()
      modifies this`calls, this`pendingSaves
      ensures Refines(old(Snapshot()), CheckpointAll, Snapshot())
    {
      ghost var r := Snapshot();
      CheckpointLoop(handles.Keys);
      CheckpointRefines(r, Snapshot());
    }

    method CheckpointOne(id: Id)
      modifies this`calls, this`pendingSaves
      ensures Becomes(old(Snapshot()), Snapshot(), id, Checkpointed(old(View(id))))
    {
      if id !in pendingRemovals {
        RequestResumeSave(id);
      }
    }

    method CheckpointNext(id: Id, ghost r: Records, ghost done: set<Id>)
      requires SaveAsked(r, Snapshot(), done) && id !in done
      modifies this`calls, this`pendingSaves
      ensures SaveAsked(r, Snapshot(), done + {id})
    {
      ghost var before := Snapshot();
      CheckpointOne(id);
      SaveAskedNext(r, before, Snapshot(), done, id);
    }

    method CheckpointLoop(all: set<Id>)
      modifies this`calls, this`pendingSaves
      ensures SaveAsked(old(Snapshot()), Snapshot(), all)
    {
      ghost var r := Snapshot();
      var todo := all;
      Rest(all, {});
      Rest(all, all);
      while todo != {}
        invariant todo <= all && SaveAsked(r, Snapshot(), all - todo)
        decreases |todo|
      {
        var id :| id in todo;
        CheckpointNext(id, r, all - todo);
        OneLess(all, todo, id);
        todo := todo - {id};
      }
    }

    /** The torrents whose payload must survive. */
    method ProtectedTorrents() returns (kept: set<Id>)
      ensures forall id :: id in kept <==> Protected(View(id))
    {
      kept := {};
      var ids := handles.Keys;
      while ids != {}
        invariant ids <= handles.Keys
        invariant forall id :: id in kept <==> id in handles && id !in ids && Live(id)
        decreases |ids|
      {
        var id :| id in ids;
        if Live(id) {
          kept := kept + {id};
        }
        ids := ids - {id};
      }
      var contexts := pending;
      while contexts != {}
        invariant contexts <= pending
        invariant forall id :: id in kept <==> Live(id) || exists c :: c in pending && c !in contexts && c.id == id
        decreases |contexts|
      {
        var c :| c in contexts;
        kept := kept + {c.id};
        contexts := contexts - {c};
      }
      forall id ensures id in kept <==> Protected(View(id)) {
        LiveIsHandle(id);
        PendingIff(pending, id);
      }
    }

    method EvictUnprotected(victims: set<Id>)
      modifies this`payloads
      ensures Refines(old(Snapshot()), EvictAll(victims), Snapshot())
    {
      ghost var r := Snapshot();
      var kept := ProtectedTorrents();
      payloads := payloads - (victims - kept);
      EvictProjects(r, victims, kept);
    }

    // ----- alerts -----

    /** The resume data is written, if that succeeds, and a torrent that waited for it goes on to unload. */
    method KeepResumeData(c: Context, written: bool)
      modifies this`resumeFiles, this`pendingUnloads, this`cacheRemovals, this`calls
      ensures var s := old(View(c.id)).(resumeFile := old(View(c.id)).resumeFile || written);
        Becomes(old(Snapshot()), Snapshot(), c.id, if s.unloading then BeginCacheUnload(s, c.number) else s)
    {
      ghost var r, s := Snapshot(), View(c.id).(resumeFile := View(c.id).resumeFile || written);
      if written {
        resumeFiles := resumeFiles + {c.id};
      }
      ghost var r' := Snapshot();
      assert Becomes(r, r', c.id, s);
      if c.id in pendingUnloads {
        BeginUnload(c);
        BecomesTwice(r, r', Snapshot(), c.id, s, BeginCacheUnload(s, c.number));
      }
    }

    method HandleResumeSaved(c: Context, written: bool)
      modifies this`pendingSaves, this`resumeFiles, this`pendingUnloads, this`cacheRemovals, this`calls
      ensures Becomes(old(Snapshot()), Snapshot(), c.id, HandleSaved(old(View(c.id)), c.number, written))
    {
      ghost var r := Snapshot();
      SettledProjects(r, c);
      if c in destroyed {
        return;
      }
      pendingSaves := pendingSaves - {c};
      ghost var r' := Snapshot();
      if c !in explicit {
        KeepResumeData(c, written);
        BecomesTwice(r, r', Snapshot(), c.id, Project(r', c.id), HandleSaved(Project(r, c.id), c.number, written));
      }
    }

    method HandleResumeSaveFailed(c: Context)
      modifies this`pendingSaves, this`pendingUnloads, this`cacheRemovals, this`calls
      ensures Becomes(old(Snapshot()), Snapshot(), c.id, HandleSaveFailed(old(View(c.id)), c.number))
    {
      ghost var r := Snapshot();
      SettledProjects(r, c);
      if c in destroyed {
        return;
      }
      pendingSaves := pendingSaves - {c};
      ghost var r' := Snapshot();
      if c !in explicit && c.id in pendingUnloads {
        BeginUnload(c);
        BecomesTwice(r, r', Snapshot(), c.id, Project(r', c.id), HandleSaveFailed(Project(r, c.id), c.number));
      }
    }

    /** One removed event is emitted, naming the request that asked for it, or 0. */
    method HandleTorrentRemoved(c: Context) returns (event: nat)
      modifies this
      ensures Becomes(old(Snapshot()), Snapshot(), c.id, HandleRemoved(old(View(c.id)), c.number))
      ensures event == if old(View(c.id)).pendingRemoval.Some? then old(View(c.id)).pendingRemoval.value else 0
    {
      ForgottenProjects(Snapshot(), c);
      event := Get(pendingRemovals, c.id, 0);
      Forget(c);
    }

    method Forget(c: Context)
      modifies this`answered, this`pendingRemovals, this`pendingUnloads, this`cacheRemovals
      modifies this`handles, this`pendingSaves, this`resumeFiles
      ensures Snapshot() == Forgotten(old(Snapshot()), c)
    {
      ghost var r := Snapshot();
      var cacheRemoval := c.id in cacheRemovals;
      Answer(c.id);
      assert Snapshot() == Answered(r, c.id);
      Drop(c, cacheRemoval);
    }

    method Answer(id: Id)
      modifies this`answered, this`pendingRemovals, this`pendingUnloads, this`cacheRemovals
      ensures id in old(pendingRemovals) ==>
        answered == old(answered)[id := Get(old(answered), id, multiset{}) + multiset{old(pendingRemovals)[id]}]
      ensures id !in old(pendingRemovals) ==> answered == old(answered)
      ensures pendingRemovals == old(pendingRemovals) - {id} && pendingUnloads == old(pendingUnloads) - {id}
      ensures cacheRemovals == old(cacheRemovals) - {id}
    {
      cacheRemovals := cacheRemovals - {id};
      pendingUnloads := pendingUnloads - {id};
      if id in pendingRemovals {
        answered := answered[id := Get(answered, id, multiset{}) + multiset{pendingRemovals[id]}];
      }
      pendingRemovals := pendingRemovals - {id};
    }

    method Drop(c: Context, keepFile: bool)
      modifies this`handles, this`pendingSaves, this`resumeFiles
      ensures handles == old(handles) - {c.id} && pendingSaves == old(pendingSaves) - {c}
      ensures resumeFiles == if keepFile then old(resumeFiles) else old(resumeFiles) - {c.id}
    {
      handles := handles - {c.id};
      pendingSaves := pendingSaves - {c};
      if !keepFile {
        resumeFiles := resumeFiles - {c.id};
      }
    }

    method HandleTorrentAdded(c: Context, owner: nat, saves: bool)
      modifies this
      ensures Becomes(old(Snapshot()), Snapshot(), c.id, HandleAdded(old(View(c.id)), Added(c.number, owner), saves))
    {
      ghost var r := Snapshot();
      AddedProjects(r, c, owner);
      handles := handles[c.id := owner];
      pending := pending - {c};
      ghost var r' := Snapshot();
      if saves {
        RequestResumeSave(c.id);
        BecomesTwice(r, r', Snapshot(), c.id, Project(r', c.id), RequestSave(Project(r', c.id)));
      }
    }

    method Dispatch(id: Id, alert: Alert, saves: bool) returns (events: seq<nat>)
      modifies this
      ensures Becomes(old(Snapshot()), Snapshot(), id, Dispatched(old(View(id)), alert, saves))
      ensures events == EventsOf(old(View(id)), alert)
    {
      events := [];
      match alert
      case Added(n, owner) => HandleTorrentAdded(Context(id, n), owner, saves);
      case AddFailed(n) =>
        AddedProjects(Snapshot(), Context(id, n), 0);
        pending := pending - {Context(id, n)};
      case Saved(n) => HandleResumeSaved(Context(id, n), saves);
      case SaveFailed(n) => HandleResumeSaveFailed(Context(id, n));
      case Removed(n) =>
        var event := HandleTorrentRemoved(Context(id, n));
        events := [event];
    }

    /** The torrent's next alert is taken and handled; at most one removed event comes of it. */
    method ProcessAlert(id: Id, saves: bool) returns (events: seq<nat>)
      modifies this
      ensures Refines(old(Snapshot()), HandleFor(id, saves), Snapshot())
      ensures events ==
        if old(View(id)).alerts == [] then [] else EventsOf(old(View(id)), old(View(id)).alerts[0])
    {
      ghost var r := Snapshot();
      if Get(alerts, id, []) == [] {
        HandleRefines(r, r, id, saves);
        return [];
      }
      var alert := alerts[id][0];
      AlertsProject(r, id, alerts[id][1..]);
      alerts := alerts[id := alerts[id][1..]];
      ghost var r' := Snapshot();
      events := Dispatch(id, alert, saves);
      BecomesTwice(r, r', Snapshot(), id, Project(r', id), Dispatched(Project(r', id), alert, saves));
      HandleRefines(r, Snapshot(), id, saves);
    }

    // ----- the session -----

    /** The session executes the torrent's next call. */
    method SessionExecutes(id: Id, succeeds: bool)
      modifies this`calls, this`alerts, this`session, this`gone
      ensures Refines(old(Snapshot()), ExecuteFor(id, succeeds), Snapshot())
    {
      ghost var r := Snapshot();
      if Get(calls, id, []) == [] {
        ExecuteRefines(r, r, id, succeeds);
        return;
      }
      var call := calls[id][0];
      CallsProject(r, id, calls[id][1..]);
      calls := calls[id := calls[id][1..]];
      ghost var r' := Snapshot();
      Perform(id, call, succeeds);
      BecomesTwice(r, r', Snapshot(), id, Project(r', id), Performed(Project(r', id), call, succeeds));
      ExecuteRefines(r, Snapshot(), id, succeeds);
    }

    method Post(id: Id, alert: Alert)
      modifies this`alerts
      ensures Becomes(old(Snapshot()), Snapshot(), id, old(View(id)).(alerts := old(View(id)).alerts + [alert]))
      ensures Snapshot() == WithAlerts(old(Snapshot()), id, Get(old(alerts), id, []) + [alert])
    {
      AlertsProject(Snapshot(), id, Get(alerts, id, []) + [alert]);
      alerts := alerts[id := Get(alerts, id, []) + [alert]];
    }

    method Perform(id: Id, call: Call, succeeds: bool)
      modifies this`alerts, this`session, this`gone
      ensures Becomes(old(Snapshot()), Snapshot(), id, Performed(old(View(id)), call, succeeds))
    {
      match call
      case CallAdd(n) => PerformAdd(id, n, succeeds);
      case CallSave(n) =>
        NumbersOf(destroyed, id, n);
        if id in session && session[id] == n && succeeds {
          Post(id, Saved(n));
        } else if Context(id, n) !in destroyed {
          Post(id, SaveFailed(n));
        }
      case CallRemove(n) =>
        if id in session && session[id] == n {
          PerformRemove(id, n);
        }
    }

    method Enter(id: Id, n: nat)
      modifies this`session
      ensures Becomes(old(Snapshot()), Snapshot(), id, old(View(id)).(session := Some(n)))
    {
      session := session[id := n];
    }

    method PerformAdd(id: Id, n: nat, succeeds: bool)
      modifies this`alerts, this`session
      ensures Becomes(old(Snapshot()), Snapshot(), id, Performed(old(View(id)), CallAdd(n), succeeds))
    {
      ghost var r := Snapshot();
      if !succeeds {
        Post(id, AddFailed(n));
      } else if id in session {
        Post(id, Added(n, session[id]));
      } else {
        Post(id, Added(n, n));
        ghost var r' := Snapshot();
        Enter(id, n);
        BecomesTwice(r, r', Snapshot(), id, Project(r', id), Performed(Project(r, id), CallAdd(n), succeeds));
      }
    }

    method PerformRemove(id: Id, n: nat)
      requires id in session && session[id] == n
      modifies this`alerts, this`session, this`gone
      ensures Becomes(old(Snapshot()), Snapshot(), id, Performed(old(View(id)), CallRemove(n), true))
    {
      ghost var r := Snapshot();
      Post(id, Removed(n));
      ghost var r' := Snapshot();
      GoneProjects(r', id, n);
      session := session - {id};
      gone := gone + {Context(id, n)};
      BecomesTwice(r, r', Snapshot(), id, Project(r', id), Performed(Project(r, id), CallRemove(n), true));
    }

    /** A torrent object that left the session is no longer reachable. */
    method ObjectDestroyed(c: Context)
      modifies this`destroyed
      ensures Refines(old(Snapshot()), DestroyContext(c), Snapshot())
    {
      DestroyRefines(Snapshot(), c);
      if c in gone {
        destroyed := destroyed + {c};
      }
    }

    // ----- whole runs -----

    method Take(step: GlobalStep)
      modifies this
      ensures Refines(old(Snapshot()), step, Snapshot())
    {
      match step
      case AddFor(id) => AddTorrent(id);
      case RemoveFor(id, request) => var refused := RemoveTorrent(id, request);
      case CheckpointAll => RunCheckpoint();
      case UnloadAll(warm) => RequestCacheUnloads(warm);
      case EvictAll(victims) => EvictUnprotected(victims);
      case HandleFor(id, saves) => var events := ProcessAlert(id, saves);
      case ExecuteFor(id, succeeds) => SessionExecutes(id, succeeds);
      case DestroyContext(c) => ObjectDestroyed(c);
    }
  }

  /** Every run of the backend with all its torrents is, for each torrent, a run of its life cycle. */
  method Replay(steps: seq<GlobalStep>) returns (backend: Backend)
    ensures fresh(backend)
    ensures forall id :: backend.View(id) == Run(INITIAL, LocalRun(steps, id))
  {
    backend := new Backend();
    for k := 0 to |steps|
      invariant fresh(backend)
      invariant Follows(backend.Snapshot(), steps[..k])
    {
      ghost var r := backend.Snapshot();
      backend.Take(steps[k]);
      FollowsNext(r, backend.Snapshot(), steps, k);
    }
    assert steps[..|steps|] == steps;
  }

  ghost predicate Follows(r: Records, steps: seq<GlobalStep>) {
    forall id :: Project(r, id) == Run(INITIAL, LocalRun(steps, id))
  }

  lemma FollowsNext(r: Records, r': Records, steps: seq<GlobalStep>, k: nat)
    requires k < |steps| && Follows(r, steps[..k]) && Refines(r, steps[k], r')
    ensures Follows(r', steps[..k + 1])
  {
    assert steps[..k + 1][..k] == steps[..k];
    forall id ensures Project(r', id) == Run(INITIAL, LocalRun(steps[..k + 1], id)) {
      var local, before := Local(steps[k], id), LocalRun(steps[..k], id);
      assert LocalRun(steps[..k + 1], id) == before + (if local.Some? then [local.value] else []);
      if local.Some? {
        RunAppend(INITIAL, before, local.value);
      } else {
        assert before + [] == before;
      }
    }
  }
}
