/** What every step of the stream bridge keeps, in every interleaving. */
module StreamBridgeSafety {
  import opened Common
  import opened StreamBridge

  // ----- the invariant -----

  predicate RouteLive(t: Tables, r: Route) {
    r.stream in t.routes && t.routes[r.stream] == r.torrent
  }

  /** At most one route per torrent, all of them known and none of them revoked. */
  ghost predicate RoutesSound(t: Tables, owners: map<Stream, Torrent>) {
    && (forall a, b :: a in t.routes && b in t.routes && t.routes[a] == t.routes[b] ==> a == b)
    && (forall a :: a in t.routes ==> a in owners && owners[a] == t.routes[a] && t.routes[a] !in t.revoked)
  }

  ghost predicate DemandsSound(t: Tables) {
    forall d :: d in t.demands ==> RouteLive(t, t.demands[d].route)
  }

  ghost predicate AnchorsSound(t: Tables) {
    forall id :: id in t.anchors ==> t.anchors[id].route.torrent == id && RouteLive(t, t.anchors[id].route)
  }

  predicate ActiveFor(t: Tables, d: nat, id: Torrent) {
    d in t.demands && t.demands[d].route.torrent == id
  }

  /** A registered waiter; only while a poll is draining may it belong to an ended demand. */
  predicate Entry(t: Tables, k: Key, w: nat, strict: bool) {
    && w < |t.waiters| && t.waiters[w].key == k && t.waiters[w].outcome == None
    && (ActiveFor(t, t.waiters[w].demand, k.torrent) || (t.waiters[w].cancelled && !strict))
  }

  ghost predicate WaitingSound(t: Tables, strict: bool) {
    && (forall k :: k in t.partial ==> k in t.waiting)
    && (forall k :: k in t.waiting ==> t.waiting[k] != [])
    && (forall k, w :: k in t.waiting && w in t.waiting[k] ==> Entry(t, k, w, strict))
  }

  ghost predicate TablesSound(t: Tables, owners: map<Stream, Torrent>, strict: bool) {
    RoutesSound(t, owners) && DemandsSound(t) && AnchorsSound(t) && WaitingSound(t, strict)
  }

  /** Nobody is forgotten: whoever still waits is registered once its command was processed. */
  ghost predicate PendingSound(t: Tables, processed: nat) {
    && processed <= |t.waiters|
    && (forall w :: 0 <= w < processed && Open(t.waiters[w]) ==> w in Registered(t))
    && (forall w :: w in Registered(t) ==> w < processed)
    && (forall w :: processed <= w < |t.waiters| ==> t.waiters[w].outcome == None)
  }

  predicate OutcomeSound(w: Waiter) {
    w.outcome.Some? && w.outcome.value.Data? ==> w.outcome.value.key == w.key
  }

  ghost predicate OutcomesSound(ws: seq<Waiter>) {
    forall w :: 0 <= w < |ws| ==> OutcomeSound(ws[w])
  }

  /** The reads in the queue are those of the waiters from `low` up to `high`, in order. */
  predicate ReadsAre(q: seq<Command>, low: nat, high: nat) {
    if q == [] then low == high
    else if q[0].ReadPiece? then q[0].waiter == low && ReadsAre(q[1..], low + 1, high)
    else ReadsAre(q[1..], low, high)
  }

  predicate CommandSound(handlers: map<nat, Handler>, ws: seq<Waiter>, c: Command) {
    && c.demand in handlers
    && match c
       case BeginDemand(d, r) => r == handlers[d].route
       case EndDemand(d) => handlers[d].ended
       case ReadPiece(d, key, w) =>
         w < |ws| && ws[w].demand == d && ws[w].key == key && key.torrent == handlers[d].route.torrent
  }

  ghost predicate CommandsSound(handlers: map<nat, Handler>, ws: seq<Waiter>, q: seq<Command>) {
    forall i :: 0 <= i < |q| ==> CommandSound(handlers, ws, q[i])
  }

  ghost predicate QueueSound(s: State) {
    && ReadsAre(s.batch, s.processed, s.taken) && ReadsAre(s.commands, s.taken, |s.tables.waiters|)
    && CommandsSound(s.handlers, s.tables.waiters, s.batch)
    && CommandsSound(s.handlers, s.tables.waiters, s.commands)
    && (s.phase != Draining ==> s.batch == [])
  }

  predicate HandlerSound(s: State, d: nat, h: Handler) {
    && 1 <= d < s.nextDemand && h.route.stream in s.owners && s.owners[h.route.stream] == h.route.torrent
    && (h.current.Some? ==> h.current.value < |s.tables.waiters| && s.tables.waiters[h.current.value].demand == d)
  }

  /** A waiter still in use is the current one of a handler that has not ended. */
  predicate HeldByHandler(handlers: map<nat, Handler>, ws: seq<Waiter>, w: nat)
    requires w < |ws|
  {
    ws[w].demand in handlers && !handlers[ws[w].demand].ended && handlers[ws[w].demand].current == Some(w)
  }

  ghost predicate HandlersSound(s: State) {
    && s.nextDemand >= 1
    && (forall d :: d in s.handlers ==> HandlerSound(s, d, s.handlers[d]))
    && (forall d :: d in s.tables.demands ==> d in s.handlers && s.tables.demands[d].route == s.handlers[d].route)
    && (forall w :: 0 <= w < |s.tables.waiters| && Open(s.tables.waiters[w]) ==>
        HeldByHandler(s.handlers, s.tables.waiters, w))
  }

  ghost predicate Sound(s: State) {
    && TablesSound(s.tables, s.owners, s.phase != Draining)
    && PendingSound(s.tables, s.processed) && OutcomesSound(s.tables.waiters)
    && QueueSound(s) && HandlersSound(s)
  }

  // ----- completing and unregistering waiters -----

  /** Some waiters were completed; nothing else happened to them. */
  ghost predicate Settles(ws: seq<Waiter>, ws': seq<Waiter>) {
    && |ws'| == |ws|
    && forall w :: 0 <= w < |ws| ==>
         && ws'[w].demand == ws[w].demand && ws'[w].key == ws[w].key && ws'[w].cancelled == ws[w].cancelled
         && (ws'[w] == ws[w] || (Open(ws[w]) && !Open(ws'[w]) && OutcomeSound(ws'[w])))
  }

  lemma SettlingKeepsOutcomes(ws: seq<Waiter>, ws': seq<Waiter>)
    requires OutcomesSound(ws) && Settles(ws, ws')
    ensures OutcomesSound(ws')
  {
  }

  /** Engine work that completes waiters and respects the handlers' routes leaves handlers sound. */
  lemma SettlingKeepsHandlers(s: State, s': State)
    requires HandlersSound(s) && Settles(s.tables.waiters, s'.tables.waiters)
    requires s'.handlers == s.handlers && s'.nextDemand == s.nextDemand
    requires forall a :: a in s.owners ==> a in s'.owners && s'.owners[a] == s.owners[a]
    requires forall d :: d in s'.tables.demands ==>
      d in s.handlers && s'.tables.demands[d].route == s.handlers[d].route
    ensures HandlersSound(s')
  {
    forall d | d in s'.handlers ensures HandlerSound(s', d, s'.handlers[d]) {
      assert HandlerSound(s, d, s.handlers[d]);
    }
    forall w | 0 <= w < |s'.tables.waiters| && Open(s'.tables.waiters[w])
      ensures HeldByHandler(s'.handlers, s'.tables.waiters, w)
    {
      assert Open(s.tables.waiters[w]);
    }
  }

  lemma SettlingKeepsCommands(handlers: map<nat, Handler>, ws: seq<Waiter>, ws': seq<Waiter>, q: seq<Command>)
    requires CommandsSound(handlers, ws, q) && Settles(ws, ws')
    ensures CommandsSound(handlers, ws', q)
  {
  }

  lemma UnregisterKeepsWaiting(t: Tables, dropped: set<nat>, strict: bool)
    requires WaitingSound(t, strict)
    ensures WaitingSound(Unregister(t, dropped), strict)
    ensures Registered(Unregister(t, dropped)) == Registered(t) - dropped
  {
    var t' := Unregister(t, dropped);
    forall k | k in t'.waiting ensures t'.waiting[k] == Without(t.waiting[k], dropped) {
    }
  }

  lemma CompletingSettles(ws: seq<Waiter>, chosen: set<nat>, outcome: Outcome)
    requires outcome.Data? ==> forall w :: w in chosen && 0 <= w < |ws| ==> outcome.key == ws[w].key
    ensures Settles(ws, CompleteWhere(ws, chosen, outcome))
  {
  }

  /** Completing exactly the registered waiters that leave forgets nobody. */
  lemma CompletedLeave(t: Tables, t': Tables, gone: set<nat>, outcome: Outcome, processed: nat)
    requires PendingSound(t, processed) && Registered(t') == Registered(t) - gone
    requires t'.waiters == CompleteWhere(t.waiters, gone * Registered(t), outcome)
    ensures PendingSound(t', processed)
  {
  }

  lemma CancelKeepsWaiting(t: Tables, ids: set<nat>)
    requires WaitingSound(t, true)
    ensures WaitingSound(CancelDemands(t, ids), true)
    ensures Registered(CancelDemands(t, ids)) == Registered(t) - WaitersOf(t, ids)
  {
    UnregisterKeepsWaiting(t, WaitersOf(t, ids), true);
    var u, t' := Unregister(t, WaitersOf(t, ids)), CancelDemands(t, ids);
    forall k, w | k in t'.waiting && w in t'.waiting[k] ensures Entry(t', k, w, true) {
      assert Entry(u, k, w, true);
    }
  }

  /** Routes, demands and anchors that are only taken away together stay sound. */
  lemma LessKeepsRoutes(t: Tables, t': Tables, owners: map<Stream, Torrent>)
    requires RoutesSound(t, owners) && DemandsSound(t) && AnchorsSound(t)
    requires t'.revoked == t.revoked
    requires forall a :: a in t'.routes ==> a in t.routes && t'.routes[a] == t.routes[a]
    requires forall d :: d in t'.demands ==>
      d in t.demands && t'.demands[d].route == t.demands[d].route && t.demands[d].route.stream in t'.routes
    requires forall id :: id in t'.anchors ==>
      id in t.anchors && t'.anchors[id] == t.anchors[id] && t.anchors[id].route.stream in t'.routes
    ensures RoutesSound(t', owners) && DemandsSound(t') && AnchorsSound(t')
  {
  }

  lemma StopKeepsSound(t: Tables, owners: map<Stream, Torrent>, streams: set<Stream>, processed: nat)
    requires TablesSound(t, owners, true) && PendingSound(t, processed)
    ensures TablesSound(StopStreams(t, streams), owners, true) && PendingSound(StopStreams(t, streams), processed)
    ensures Settles(t.waiters, StopStreams(t, streams).waiters)
  {
    var ids := DemandsOf(t, streams);
    var t' := StopStreams(t, streams);
    var u := t.(routes := t.routes - streams,
                anchors := map id | id in t.anchors && t.anchors[id].route.stream !in streams :: t.anchors[id]);
    CancelKeepsWaiting(u, ids);
    assert Registered(u) == Registered(t) && WaitersOf(u, ids) == WaitersOf(t, ids);
    CompletedLeave(t, t', WaitersOf(t, ids), Failed, processed);
    CompletingSettles(t.waiters, WaitersOf(t, ids) * Registered(t), Failed);
    LessKeepsRoutes(t, t', owners);
  }

  lemma RecomputeKeepsSound(t: Tables, owners: map<Stream, Torrent>, id: Torrent, planned: bool, strict: bool)
    requires TablesSound(t, owners, strict)
    ensures TablesSound(Recompute(t, id, planned), owners, strict)
    ensures Registered(Recompute(t, id, planned)) == Registered(t)
  {
  }

  /** What engine work outside the command loop achieves: sound tables, nobody forgotten or revived. */
  ghost predicate Tidy(t: Tables, t': Tables, owners: map<Stream, Torrent>, processed: nat) {
    && TablesSound(t', owners, true) && PendingSound(t', processed)
    && Settles(t.waiters, t'.waiters)
    && forall d :: d in t'.demands ==> d in t.demands && t'.demands[d].route == t.demands[d].route
  }

  lemma SamePending(t: Tables, t': Tables, processed: nat)
    requires PendingSound(t, processed) && t'.waiters == t.waiters && t'.waiting == t.waiting
    ensures PendingSound(t', processed) && Registered(t') == Registered(t) && Settles(t.waiters, t'.waiters)
  {
    assert Registered(t') == Registered(t);
  }

  lemma NewRouteKeepsSound(t: Tables, owners: map<Stream, Torrent>, r: Route)
    requires TablesSound(t, owners, true) && r.stream !in owners
    requires forall s :: s in t.routes ==> t.routes[s] != r.torrent
    ensures TablesSound(t.(routes := t.routes[r.stream := r.torrent], revoked := t.revoked - {r.torrent}),
                        owners[r.stream := r.torrent], true)
  {
  }

  lemma NewAnchorKeepsSound(t: Tables, owners: map<Stream, Torrent>, r: Route)
    requires TablesSound(t, owners, true) && RouteLive(t, r)
    ensures TablesSound(t.(anchors := t.anchors[r.torrent := StreamAnchor(r, true)]), owners, true)
  {
  }

  lemma AnchorRegistered(t: Tables, owners: map<Stream, Torrent>, r: Route, planned: bool, processed: nat)
    requires TablesSound(t, owners, true) && PendingSound(t, processed) && RouteLive(t, r)
    ensures Tidy(t, Recompute(t.(anchors := t.anchors[r.torrent := StreamAnchor(r, true)]), r.torrent, planned), owners, processed)
  {
    var u := t.(anchors := t.anchors[r.torrent := StreamAnchor(r, true)]);
    NewAnchorKeepsSound(t, owners, r);
    RecomputeKeepsSound(u, owners, r.torrent, planned, true);
    SamePending(t, Recompute(u, r.torrent, planned), processed);
  }

  lemma RegisterKeepsSound(t: Tables, owners: map<Stream, Torrent>, r: Route, nonEmpty: bool, planned: bool, processed: nat)
    requires TablesSound(t, owners, true) && PendingSound(t, processed) && r.stream !in owners
    ensures Tidy(t, RegisterStream(t, r, nonEmpty, planned), owners[r.stream := r.torrent], processed)
  {
    var previous := set s | s in t.routes && t.routes[s] == r.torrent;
    StopKeepsSound(t, owners, previous, processed);
    var u := StopStreams(t, previous);
    NewRouteKeepsSound(u, owners, r);
    var v := u.(routes := u.routes[r.stream := r.torrent], revoked := u.revoked - {r.torrent});
    SamePending(u, v, processed);
    AnchorRegistered(v, owners[r.stream := r.torrent], r, planned, processed);
  }

  lemma StopStreamKeepsSound(t: Tables, owners: map<Stream, Torrent>, stream: Stream, planned: bool, processed: nat)
    requires TablesSound(t, owners, true) && PendingSound(t, processed)
    ensures Tidy(t, StopStream(t, stream, planned), owners, processed)
  {
    StopKeepsSound(t, owners, {stream}, processed);
    var u := StopStreams(t, {stream});
    if stream in t.routes {
      RecomputeKeepsSound(u, owners, t.routes[stream], planned, true);
    }
    SamePending(u, StopStream(t, stream, planned), processed);
  }

  lemma ClearKeepsWaiting(t: Tables, id: Torrent)
    requires WaitingSound(t, true)
    ensures WaitingSound(Cleared(t, id), true)
    ensures Registered(Cleared(t, id)) == Registered(t) - WaitersOn(t, id)
  {
    var t' := Cleared(t, id);
    forall k, w | k in t'.waiting && w in t'.waiting[k] ensures Entry(t', k, w, true) {
      assert Entry(t, k, w, true);
    }
  }

  /** A new plan after tidy work is tidy. */
  lemma RecomputeTidy(t: Tables, u: Tables, owners: map<Stream, Torrent>, id: Torrent, planned: bool, processed: nat)
    requires Tidy(t, u, owners, processed)
    ensures Tidy(t, Recompute(u, id, planned), owners, processed)
  {
    RecomputeKeepsSound(u, owners, id, planned, true);
    SamePending(u, Recompute(u, id, planned), processed);
  }

  lemma ClearedRoutesSound(t: Tables, owners: map<Stream, Torrent>, id: Torrent)
    requires RoutesSound(t, owners) && DemandsSound(t) && AnchorsSound(t)
    ensures RoutesSound(Cleared(t, id), owners) && DemandsSound(Cleared(t, id)) && AnchorsSound(Cleared(t, id))
  {
    LessKeepsRoutes(t, Cleared(t, id).(revoked := t.revoked), owners);
  }

  lemma ClearKeepsSound(t: Tables, owners: map<Stream, Torrent>, id: Torrent, processed: nat)
    requires TablesSound(t, owners, true) && PendingSound(t, processed)
    ensures Tidy(t, Cleared(t, id), owners, processed)
  {
    ClearKeepsWaiting(t, id);
    ClearedRoutesSound(t, owners, id);
    assert WaitersOn(t, id) * Registered(t) == WaitersOn(t, id);
    CompletedLeave(t, Cleared(t, id), WaitersOn(t, id), Failed, processed);
    CompletingSettles(t.waiters, WaitersOn(t, id), Failed);
  }

  lemma RemoveKeepsSound(t: Tables, owners: map<Stream, Torrent>, id: Torrent, planned: bool, processed: nat)
    requires TablesSound(t, owners, true) && PendingSound(t, processed)
    ensures Tidy(t, RemoveTorrent(t, id, planned), owners, processed)
  {
    ClearKeepsSound(t, owners, id, processed);
    RecomputeTidy(t, Cleared(t, id), owners, id, planned, processed);
  }

  lemma FinishPieceKeepsSound(t: Tables, owners: map<Stream, Torrent>, key: Key, outcome: Outcome, processed: nat)
    requires TablesSound(t, owners, true) && PendingSound(t, processed) && (outcome == Data(key) || outcome == Failed)
    ensures Tidy(t, FinishPiece(t, key, outcome), owners, processed)
  {
    var t' := FinishPiece(t, key, outcome);
    forall k, w | k in t'.waiting && w in t'.waiting[k] ensures Entry(t', k, w, true) {
      assert Entry(t, k, w, true);
    }
    assert Registered(t') == Registered(t) - WaitersFor(t, key);
    assert WaitersFor(t, key) * Registered(t) == WaitersFor(t, key);
    CompletedLeave(t, t', WaitersFor(t, key), outcome, processed);
    CompletingSettles(t.waiters, WaitersFor(t, key), outcome);
  }

  lemma BlockKeepsSound(t: Tables, owners: map<Stream, Torrent>, key: Key, block: nat, planned: bool, processed: nat)
    requires TablesSound(t, owners, true) && PendingSound(t, processed)
    ensures Tidy(t, Recompute(BlockFinished(t, key, block), key.torrent, planned), owners, processed)
  {
    var u := BlockFinished(t, key, block);
    assert TablesSound(u, owners, true);
    RecomputeKeepsSound(u, owners, key.torrent, planned, true);
    SamePending(t, Recompute(u, key.torrent, planned), processed);
  }

  lemma HashFailedKeepsSound(t: Tables, owners: map<Stream, Torrent>, key: Key, processed: nat)
    requires TablesSound(t, owners, true) && PendingSound(t, processed)
    ensures Tidy(t, HashFailed(t, key), owners, processed)
  {
    SamePending(t, HashFailed(t, key), processed);
  }

  lemma ExpireKeepsSound(t: Tables, owners: map<Stream, Torrent>, stream: Stream, planned: bool, processed: nat)
    requires TablesSound(t, owners, true) && PendingSound(t, processed) && stream in t.routes
    ensures Tidy(t, Recompute(Expire(t, stream), t.routes[stream], planned), owners, processed)
  {
    ExpiredRoutesSound(t, owners, stream);
    SamePending(t, Expire(t, stream), processed);
    RecomputeTidy(t, Expire(t, stream), owners, t.routes[stream], planned, processed);
  }

  lemma ExpiredRoutesSound(t: Tables, owners: map<Stream, Torrent>, stream: Stream)
    requires TablesSound(t, owners, true)
    ensures TablesSound(Expire(t, stream), owners, true)
  {
    if stream in t.routes && DemandsOf(t, {stream}) == {} {
      DroppedRoutesSound(t, owners, stream);
    }
  }

  lemma DroppedRoutesSound(t: Tables, owners: map<Stream, Torrent>, stream: Stream)
    requires TablesSound(t, owners, true) && stream in t.routes && DemandsOf(t, {stream}) == {}
    ensures TablesSound(Expire(t, stream), owners, true)
  {
    var u := Expire(t, stream);
    forall d | d in t.demands ensures t.demands[d].route.stream in u.routes {
      assert d !in DemandsOf(t, {stream});
    }
    SameWaiting(t, u);
    LessKeepsRoutes(t, u, owners);
  }

  lemma SameWaiting(t: Tables, u: Tables)
    requires WaitingSound(t, true) && u.waiting == t.waiting && u.partial == t.partial
    requires u.waiters == t.waiters && u.demands == t.demands
    ensures WaitingSound(u, true)
  {
    forall k, w | k in u.waiting && w in u.waiting[k] ensures Entry(u, k, w, true) {
      assert Entry(t, k, w, true);
    }
  }

  /** Pruning drops only cancelled waiters, and leaves none behind whose demand has ended. */
  lemma PruneKeepsSound(t: Tables, owners: map<Stream, Torrent>, processed: nat)
    requires TablesSound(t, owners, false) && PendingSound(t, processed)
    ensures Tidy(t, Prune(t), owners, processed)
  {
    var dropped := set w | 0 <= w < |t.waiters| && t.waiters[w].cancelled;
    UnregisterKeepsWaiting(t, dropped, false);
    var t' := Prune(t);
    forall k, w | k in t'.waiting && w in t'.waiting[k] ensures Entry(t', k, w, true) {
      assert Entry(t', k, w, false) && w !in dropped;
    }
  }

  // ----- processing one command -----

  lemma BeginKeepsSound(t: Tables, owners: map<Stream, Torrent>, d: nat, demand: Demand)
    requires TablesSound(t, owners, false) && RouteLive(t, demand.route)
    requires d in t.demands ==> t.demands[d].route == demand.route
    ensures TablesSound(t.(demands := t.demands[d := demand]), owners, false)
  {
    var t' := t.(demands := t.demands[d := demand]);
    forall k, w | k in t'.waiting && w in t'.waiting[k] ensures Entry(t', k, w, false) {
      assert Entry(t, k, w, false);
    }
  }

  /** Only a handler without an open waiter ends its demand. */
  lemma EndKeepsSound(t: Tables, owners: map<Stream, Torrent>, d: nat)
    requires TablesSound(t, owners, false)
    requires forall w :: 0 <= w < |t.waiters| && t.waiters[w].demand == d ==> !Open(t.waiters[w])
    ensures TablesSound(t.(demands := t.demands - {d}), owners, false)
  {
    var t' := t.(demands := t.demands - {d});
    forall k, w | k in t'.waiting && w in t'.waiting[k] ensures Entry(t', k, w, false) {
      assert Entry(t, k, w, false);
    }
  }

  lemma CompleteOneKeepsSound(t: Tables, owners: map<Stream, Torrent>, w: nat, outcome: Outcome)
    requires TablesSound(t, owners, false) && PendingSound(t, w) && w < |t.waiters|
    requires outcome == Failed || outcome == Data(t.waiters[w].key)
    ensures var t' := t.(waiters := CompleteOne(t.waiters, w, outcome));
      TablesSound(t', owners, false) && PendingSound(t', w + 1) && Settles(t.waiters, t'.waiters)
  {
    var t' := t.(waiters := CompleteOne(t.waiters, w, outcome));
    assert w !in Registered(t);
    assert Registered(t') == Registered(t);
    forall k, x | k in t'.waiting && x in t'.waiting[k] ensures Entry(t', k, x, false) {
      assert Entry(t, k, x, false);
      assert x in Registered(t);
    }
  }

  function Enlisted(t: Tables, key: Key, w: nat, partial: map<Key, seq<bool>>): Tables {
    t.(waiting := t.waiting[key := (if key in t.waiting then t.waiting[key] else []) + [w]], partial := partial)
  }

  lemma EnlistedRegistered(t: Tables, key: Key, w: nat, partial: map<Key, seq<bool>>)
    requires w < |t.waiters| && t.waiters[w].key == key
    ensures Registered(Enlisted(t, key, w, partial)) == Registered(t) + {w}
  {
    var t' := Enlisted(t, key, w, partial);
    assert w in t'.waiting[key];
  }

  lemma EnlistKeepsWaiting(t: Tables, key: Key, w: nat, partial: map<Key, seq<bool>>)
    requires WaitingSound(t, false) && w < |t.waiters| && t.waiters[w].outcome == None
    requires t.waiters[w].key == key && ActiveFor(t, t.waiters[w].demand, key.torrent)
    requires forall k :: k in partial ==> k in t.partial || k == key
    ensures WaitingSound(Enlisted(t, key, w, partial), false)
  {
    var t' := Enlisted(t, key, w, partial);
    forall k, x | k in t'.waiting && x in t'.waiting[k] ensures Entry(t', k, x, false) {
      assert (k == key && x == w) || (k in t.waiting && x in t.waiting[k]);
    }
  }

  lemma EnlistKeepsSound(t: Tables, owners: map<Stream, Torrent>, key: Key, w: nat, partial: map<Key, seq<bool>>)
    requires TablesSound(t, owners, false) && PendingSound(t, w) && w < |t.waiters|
    requires t.waiters[w].key == key && ActiveFor(t, t.waiters[w].demand, key.torrent)
    requires forall k :: k in partial ==> k in t.partial || k == key
    ensures TablesSound(Enlisted(t, key, w, partial), owners, false)
    ensures PendingSound(Enlisted(t, key, w, partial), w + 1)
  {
    EnlistKeepsWaiting(t, key, w, partial);
    EnlistedRegistered(t, key, w, partial);
  }

  lemma ReadKeepsSound(t: Tables, owners: map<Stream, Torrent>, c: Command, reading: Reading)
    requires TablesSound(t, owners, false) && c.ReadPiece? && PendingSound(t, c.waiter) && c.waiter < |t.waiters|
    requires t.waiters[c.waiter].demand == c.demand && t.waiters[c.waiter].key == c.key
    requires c.demand in t.demands ==> t.demands[c.demand].route.torrent == c.key.torrent
    ensures var t' := ProcessRead(t, c, reading);
      TablesSound(t', owners, false) && PendingSound(t', c.waiter + 1) && Settles(t.waiters, t'.waiters)
  {
    if c.demand !in t.demands || c.demand in t.cancelled || c.key.torrent in t.revoked || reading.Unusable? {
      CompleteOneKeepsSound(t, owners, c.waiter, Failed);
    } else {
      ServedReadKeepsSound(t, owners, c, reading);
    }
  }

  lemma ServedReadKeepsSound(t: Tables, owners: map<Stream, Torrent>, c: Command, reading: Reading)
    requires TablesSound(t, owners, false) && c.ReadPiece? && PendingSound(t, c.waiter) && c.waiter < |t.waiters|
    requires t.waiters[c.waiter].demand == c.demand && t.waiters[c.waiter].key == c.key
    requires c.demand in t.demands && t.demands[c.demand].route.torrent == c.key.torrent
    requires c.demand !in t.cancelled && c.key.torrent !in t.revoked && !reading.Unusable?
    ensures Processed(t, ProcessRead(t, c, reading), owners, c.waiter + 1)
  {
    var demand := t.demands[c.demand].(needsData := reading.Missing?);
    var u := t.(demands := t.demands[c.demand := demand]);
    BeginKeepsSound(t, owners, c.demand, demand);
    SamePending(t, u, c.waiter);
    if reading.Cached? {
      CompleteOneKeepsSound(u, owners, c.waiter, Data(c.key));
    } else {
      EnlistKeepsSound(u, owners, c.key, c.waiter, ProcessRead(t, c, reading).partial);
    }
  }

  lemma CommandsTail(handlers: map<nat, Handler>, ws: seq<Waiter>, q: seq<Command>)
    requires CommandsSound(handlers, ws, q) && q != []
    ensures CommandSound(handlers, ws, q[0]) && CommandsSound(handlers, ws, q[1..])
  {
  }

  /** A processed command activates at most its own demand, on its own route. */
  lemma ProcessedDemands(t: Tables, c: Command, needsData: bool, reading: Reading, d: nat)
    requires d in ProcessCommand(t, c, needsData, reading).demands
    ensures
      || (d in t.demands && ProcessCommand(t, c, needsData, reading).demands[d].route == t.demands[d].route)
      || (c.BeginDemand? && d == c.demand && ProcessCommand(t, c, needsData, reading).demands[d].route == c.route)
  {
  }

  lemma ProcessKeepsQueue(s: State, needsData: bool, reading: Reading)
    requires QueueSound(s) && s.phase == Draining && s.batch != []
    requires Settles(s.tables.waiters, ProcessCommand(s.tables, s.batch[0], needsData, reading).waiters)
    ensures QueueSound(ProcessStep(s, needsData, reading))
  {
    var ws' := ProcessCommand(s.tables, s.batch[0], needsData, reading).waiters;
    CommandsTail(s.handlers, s.tables.waiters, s.batch);
    SettlingKeepsCommands(s.handlers, s.tables.waiters, ws', s.batch[1..]);
    SettlingKeepsCommands(s.handlers, s.tables.waiters, ws', s.commands);
  }

  lemma ProcessKeepsHandlers(s: State, needsData: bool, reading: Reading)
    requires HandlersSound(s) && s.phase == Draining && s.batch != []
    requires CommandSound(s.handlers, s.tables.waiters, s.batch[0])
    requires Settles(s.tables.waiters, ProcessCommand(s.tables, s.batch[0], needsData, reading).waiters)
    ensures HandlersSound(ProcessStep(s, needsData, reading))
  {
    var t' := ProcessCommand(s.tables, s.batch[0], needsData, reading);
    forall d | d in t'.demands ensures d in s.handlers && t'.demands[d].route == s.handlers[d].route {
      ProcessedDemands(s.tables, s.batch[0], needsData, reading, d);
    }
    SettlingKeepsHandlers(s, ProcessStep(s, needsData, reading));
  }

  /** A processed command: sound tables, nobody forgotten, waiters only completed. */
  ghost predicate Processed(t: Tables, t': Tables, owners: map<Stream, Torrent>, processed: nat) {
    TablesSound(t', owners, false) && PendingSound(t', processed) && Settles(t.waiters, t'.waiters)
  }

  lemma EndedIsClosed(s: State, d: nat, w: nat)
    requires HandlersSound(s) && d in s.handlers && s.handlers[d].ended
    requires w < |s.tables.waiters| && s.tables.waiters[w].demand == d
    ensures !Open(s.tables.waiters[w])
  {
    assert Open(s.tables.waiters[w]) ==> HeldByHandler(s.handlers, s.tables.waiters, w);
  }

  lemma EndCommandKeepsTables(s: State, d: nat)
    requires TablesSound(s.tables, s.owners, false) && PendingSound(s.tables, s.processed) && HandlersSound(s)
    requires d in s.handlers && s.handlers[d].ended
    ensures Processed(s.tables, s.tables.(demands := s.tables.demands - {d}), s.owners, s.processed)
  {
    var t := s.tables;
    forall w | 0 <= w < |t.waiters| && t.waiters[w].demand == d ensures !Open(t.waiters[w]) {
      EndedIsClosed(s, d, w);
    }
    EndKeepsSound(t, s.owners, d);
    SamePending(t, t.(demands := t.demands - {d}), s.processed);
  }

  lemma BeginCommandKeepsTables(t: Tables, owners: map<Stream, Torrent>, processed: nat, c: Command, needsData: bool)
    requires TablesSound(t, owners, false) && PendingSound(t, processed) && c.BeginDemand?
    requires c.demand in t.demands ==> t.demands[c.demand].route == c.route
    ensures Processed(t, ProcessCommand(t, c, needsData, Unusable), owners, processed)
  {
    SamePending(t, ProcessCommand(t, c, needsData, Unusable), processed);
    if RouteIsActive(t, c.route) {
      BeginKeepsSound(t, owners, c.demand, Demand(c.route, needsData));
    } else {
      TellingKeepsSound(t, owners, c.demand);
    }
  }

  lemma TellingKeepsSound(t: Tables, owners: map<Stream, Torrent>, d: nat)
    requires TablesSound(t, owners, false)
    ensures TablesSound(t.(cancelled := t.cancelled + {d}), owners, false)
  {
    var u := t.(cancelled := t.cancelled + {d});
    forall k, w | k in u.waiting && w in u.waiting[k] ensures Entry(u, k, w, false) {
      assert Entry(t, k, w, false);
    }
  }

  lemma DemandCommandKeepsTables(s: State, c: Command, needsData: bool, reading: Reading)
    requires TablesSound(s.tables, s.owners, false) && PendingSound(s.tables, s.processed) && HandlersSound(s)
    requires CommandSound(s.handlers, s.tables.waiters, c) && !c.ReadPiece?
    ensures Processed(s.tables, ProcessCommand(s.tables, c, needsData, reading), s.owners, s.processed)
  {
    if c.EndDemand? {
      assert ProcessCommand(s.tables, c, needsData, reading) == s.tables.(demands := s.tables.demands - {c.demand});
      EndCommandKeepsTables(s, c.demand);
    } else {
      assert ProcessCommand(s.tables, c, needsData, reading) == ProcessCommand(s.tables, c, needsData, Unusable);
      BeginCommandKeepsTables(s.tables, s.owners, s.processed, c, needsData);
    }
  }

  lemma ReadCommandKeepsTables(s: State, c: Command, needsData: bool, reading: Reading)
    requires TablesSound(s.tables, s.owners, false) && PendingSound(s.tables, s.processed) && HandlersSound(s)
    requires CommandSound(s.handlers, s.tables.waiters, c) && c.ReadPiece? && c.waiter == s.processed
    ensures Processed(s.tables, ProcessCommand(s.tables, c, needsData, reading), s.owners, s.processed + 1)
  {
    ReadKeepsSound(s.tables, s.owners, c, reading);
  }

  lemma ProcessKeepsSound(s: State, needsData: bool, reading: Reading)
    requires Sound(s) && s.phase == Draining && s.batch != []
    ensures Sound(ProcessStep(s, needsData, reading))
  {
    var t, c := s.tables, s.batch[0];
    CommandsTail(s.handlers, t.waiters, s.batch);
    if c.ReadPiece? {
      ReadCommandKeepsTables(s, c, needsData, reading);
    } else {
      DemandCommandKeepsTables(s, c, needsData, reading);
    }
    ProcessKeepsQueue(s, needsData, reading);
    ProcessKeepsHandlers(s, needsData, reading);
    SettlingKeepsOutcomes(t.waiters, ProcessCommand(t, c, needsData, reading).waiters);
  }

  // ----- the handlers' steps -----

  lemma {:induction false} ReadsAppend(q: seq<Command>, c: Command, low: nat, high: nat)
    requires ReadsAre(q, low, high) && (c.ReadPiece? ==> c.waiter == high)
    ensures ReadsAre(q + [c], low, if c.ReadPiece? then high + 1 else high)
  {
    if q == [] {
      assert q + [c] == [c];
      assert [c][1..] == [];
    } else {
      var longer := q + [c];
      assert longer[0] == q[0] && longer[1..] == q[1..] + [c];
      ReadsAppend(q[1..], c, if q[0].ReadPiece? then low + 1 else low, high);
    }
  }

  /** Commands stay sound while handlers and waiters only gain members and handlers only end. */
  lemma MoreKeepsCommands(handlers: map<nat, Handler>, ws: seq<Waiter>, handlers': map<nat, Handler>, ws': seq<Waiter>,
                          q: seq<Command>)
    requires CommandsSound(handlers, ws, q) && |ws| <= |ws'|
    requires forall d :: d in handlers ==>
      d in handlers' && handlers'[d].route == handlers[d].route && (handlers[d].ended ==> handlers'[d].ended)
    requires forall w :: 0 <= w < |ws| ==> ws'[w].demand == ws[w].demand && ws'[w].key == ws[w].key
    ensures CommandsSound(handlers', ws', q)
  {
    forall i | 0 <= i < |q| ensures CommandSound(handlers', ws', q[i]) {
      assert CommandSound(handlers, ws, q[i]);
    }
  }

  lemma HandlerBeginKeepsSound(s: State, stream: Stream)
    requires Sound(s)
    ensures Sound(BeginStep(s, stream))
  {
    if stream in s.owners && |s.commands| < MAXIMUM_HTTP_COMMANDS {
      var s' := BeginStep(s, stream);
      var c := BeginDemand(s.nextDemand, Route(stream, s.owners[stream]));
      ReadsAppend(s.commands, c, s.taken, |s.tables.waiters|);
      MoreKeepsCommands(s.handlers, s.tables.waiters, s'.handlers, s.tables.waiters, s.batch);
      MoreKeepsCommands(s.handlers, s.tables.waiters, s'.handlers, s.tables.waiters, s.commands);
    }
  }

  lemma HandlerEndKeepsSound(s: State, d: nat)
    requires Sound(s)
    ensures Sound(EndStep(s, d))
  {
    if Unoccupied(s, d) {
      var s' := EndStep(s, d);
      ReadsAppend(s.commands, EndDemand(d), s.taken, |s.tables.waiters|);
      MoreKeepsCommands(s.handlers, s.tables.waiters, s'.handlers, s.tables.waiters, s.batch);
      MoreKeepsCommands(s.handlers, s.tables.waiters, s'.handlers, s.tables.waiters, s.commands);
    }
  }

  lemma CancelKeepsTables(t: Tables, owners: map<Stream, Torrent>, w: nat, strict: bool, processed: nat)
    requires TablesSound(t, owners, strict) && PendingSound(t, processed) && OutcomesSound(t.waiters) && w < |t.waiters|
    ensures var t' := t.(waiters := t.waiters[w := t.waiters[w].(cancelled := true)]);
      TablesSound(t', owners, strict) && PendingSound(t', processed) && OutcomesSound(t'.waiters)
  {
    var t' := t.(waiters := t.waiters[w := t.waiters[w].(cancelled := true)]);
    forall k, x | k in t'.waiting && x in t'.waiting[k] ensures Entry(t', k, x, strict) {
      assert Entry(t, k, x, strict);
    }
    assert Registered(t') == Registered(t);
  }

  lemma HandlerCancelKeepsSound(s: State, d: nat)
    requires Sound(s)
    ensures Sound(CancelStep(s, d))
  {
    if d in s.handlers && s.handlers[d].current.Some? {
      var s' := CancelStep(s, d);
      CancelKeepsTables(s.tables, s.owners, s.handlers[d].current.value, s.phase != Draining, s.processed);
      MoreKeepsCommands(s.handlers, s.tables.waiters, s.handlers, s'.tables.waiters, s.batch);
      MoreKeepsCommands(s.handlers, s.tables.waiters, s.handlers, s'.tables.waiters, s.commands);
    }
  }

  lemma NewWaiterKeepsTables(t: Tables, owners: map<Stream, Torrent>, x: Waiter, strict: bool, processed: nat)
    requires TablesSound(t, owners, strict) && PendingSound(t, processed) && OutcomesSound(t.waiters) && Open(x)
    ensures var t' := t.(waiters := t.waiters + [x]);
      TablesSound(t', owners, strict) && PendingSound(t', processed) && OutcomesSound(t'.waiters)
  {
    var t' := t.(waiters := t.waiters + [x]);
    forall k, w | k in t'.waiting && w in t'.waiting[k] ensures Entry(t', k, w, strict) {
      assert Entry(t, k, w, strict);
    }
    assert Registered(t') == Registered(t);
  }

  /** The new waiter is its handler's current one, and the handler had no other in use. */
  lemma NewWaiterIsHeld(s: State, d: nat, piece: nat, w: nat)
    requires HandlersSound(s) && Unoccupied(s, d) && |s.commands| < MAXIMUM_HTTP_COMMANDS
    requires w < |ReadStep(s, d, piece).tables.waiters| && Open(ReadStep(s, d, piece).tables.waiters[w])
    ensures HeldByHandler(ReadStep(s, d, piece).handlers, ReadStep(s, d, piece).tables.waiters, w)
  {
    var ws := s.tables.waiters;
    if w < |ws| {
      assert ReadStep(s, d, piece).tables.waiters[w] == ws[w];
      assert HeldByHandler(s.handlers, ws, w);
      assert ws[w].demand != d;
    }
  }

  lemma HandlerReadKeepsHandlers(s: State, d: nat, piece: nat)
    requires HandlersSound(s) && Unoccupied(s, d) && |s.commands| < MAXIMUM_HTTP_COMMANDS
    ensures HandlersSound(ReadStep(s, d, piece))
  {
    var s' := ReadStep(s, d, piece);
    forall e | e in s'.handlers ensures HandlerSound(s', e, s'.handlers[e]) {
      assert HandlerSound(s, e, s.handlers[e]);
    }
    forall w | 0 <= w < |s'.tables.waiters| && Open(s'.tables.waiters[w])
      ensures HeldByHandler(s'.handlers, s'.tables.waiters, w)
    {
      NewWaiterIsHeld(s, d, piece, w);
    }
  }

  lemma HandlerReadKeepsSound(s: State, d: nat, piece: nat)
    requires Sound(s)
    ensures Sound(ReadStep(s, d, piece))
  {
    if Unoccupied(s, d) && |s.commands| < MAXIMUM_HTTP_COMMANDS {
      var key := Key(s.handlers[d].route.torrent, piece);
      HandlerReadKeepsHandlers(s, d, piece);
      HandlerReadKeepsQueue(s, d, piece);
      NewWaiterKeepsTables(s.tables, s.owners, Waiter(d, key, None, false), s.phase != Draining, s.processed);
    }
  }

  lemma HandlerReadKeepsQueue(s: State, d: nat, piece: nat)
    requires QueueSound(s) && Unoccupied(s, d) && |s.commands| < MAXIMUM_HTTP_COMMANDS
    ensures QueueSound(ReadStep(s, d, piece))
  {
    var s' := ReadStep(s, d, piece);
    var w, key := |s.tables.waiters|, Key(s.handlers[d].route.torrent, piece);
    ReadsAppend(s.commands, ReadPiece(d, key, w), s.taken, w);
    MoreKeepsCommands(s.handlers, s.tables.waiters, s'.handlers, s'.tables.waiters, s.batch);
    MoreKeepsCommands(s.handlers, s.tables.waiters, s'.handlers, s'.tables.waiters, s.commands);
  }

  // ----- every step -----

  lemma EngineWorkKeepsSound(s: State, s': State)
    requires Sound(s) && Tidy(s.tables, s'.tables, s'.owners, s.processed) && s'.phase != Draining
    requires s'.handlers == s.handlers && s'.nextDemand == s.nextDemand
    requires forall a :: a in s.owners ==> a in s'.owners && s'.owners[a] == s.owners[a]
    requires s'.commands == s.commands && s'.batch == s.batch == [] && s'.taken == s.taken && s'.processed == s.processed
    ensures Sound(s')
  {
    SettlingKeepsHandlers(s, s');
    SettlingKeepsCommands(s.handlers, s.tables.waiters, s'.tables.waiters, s.commands);
    SettlingKeepsOutcomes(s.tables.waiters, s'.tables.waiters);
  }

  lemma PlansTidy(t: Tables, owners: map<Stream, Torrent>, step: Step, processed: nat)
    requires TablesSound(t, owners, true) && PendingSound(t, processed)
    requires step.RecomputeChanged? || step.ExpireStream?
    ensures Tidy(t, Operate(t, step), owners, processed)
  {
    if step.RecomputeChanged? {
      var t' := Recompute(t, step.id, step.planned);
      assert Operate(t, step) == t';
      RecomputeKeepsSound(t, owners, step.id, step.planned, true);
      SamePending(t, t', processed);
    } else if step.stream in t.routes {
      assert Operate(t, step) == Recompute(Expire(t, step.stream), t.routes[step.stream], step.planned);
      ExpireKeepsSound(t, owners, step.stream, step.planned, processed);
    } else {
      SamePending(t, t, processed);
    }
  }

  lemma EndingsTidy(t: Tables, owners: map<Stream, Torrent>, step: Step, processed: nat)
    requires TablesSound(t, owners, true) && PendingSound(t, processed)
    requires step.Stop? || step.Remove?
    ensures Tidy(t, Operate(t, step), owners, processed)
  {
    if step.Stop? {
      assert Operate(t, step) == StopStream(t, step.stream, step.planned);
      StopStreamKeepsSound(t, owners, step.stream, step.planned, processed);
    } else {
      assert Operate(t, step) == RemoveTorrent(t, step.torrent, step.planned);
      RemoveKeepsSound(t, owners, step.torrent, step.planned, processed);
    }
  }

  lemma DeliveryTidy(t: Tables, owners: map<Stream, Torrent>, key: Key, succeeded: bool, processed: nat)
    requires TablesSound(t, owners, true) && PendingSound(t, processed)
    ensures Tidy(t, Operate(t, DeliverPiece(key, succeeded)), owners, processed)
  {
    var outcome := if succeeded then Data(key) else Failed;
    assert Operate(t, DeliverPiece(key, succeeded)) == FinishPiece(t, key, outcome);
    FinishPieceKeepsSound(t, owners, key, outcome, processed);
  }

  lemma BlocksTidy(t: Tables, owners: map<Stream, Torrent>, step: Step, processed: nat)
    requires TablesSound(t, owners, true) && PendingSound(t, processed)
    requires step.DeliverBlock? || step.DeliverHashFailure?
    ensures Tidy(t, Operate(t, step), owners, processed)
  {
    if step.DeliverBlock? {
      assert Operate(t, step) == Recompute(BlockFinished(t, step.key, step.block), step.key.torrent, step.planned);
      BlockKeepsSound(t, owners, step.key, step.block, step.planned, processed);
    } else {
      assert Operate(t, step) == HashFailed(t, step.key);
      HashFailedKeepsSound(t, owners, step.key, processed);
    }
  }

  lemma RegistrationTidy(t: Tables, owners: map<Stream, Torrent>, step: Step, processed: nat)
    requires TablesSound(t, owners, true) && PendingSound(t, processed) && step.Register? && step.route.stream !in owners
    ensures Tidy(t, Operate(t, step), OwnersAfter(owners, step), processed)
  {
    assert Operate(t, step) == RegisterStream(t, step.route, step.nonEmpty, step.planned);
    RegisterKeepsSound(t, owners, step.route, step.nonEmpty, step.planned, processed);
  }

  lemma OperationsTidy(t: Tables, owners: map<Stream, Torrent>, step: Step, processed: nat)
    requires TablesSound(t, owners, true) && PendingSound(t, processed)
    requires step.Register? ==> step.route.stream !in owners
    ensures Tidy(t, Operate(t, step), OwnersAfter(owners, step), processed)
  {
    if step.Register? {
      RegistrationTidy(t, owners, step, processed);
    } else if step.Stop? || step.Remove? {
      EndingsTidy(t, owners, step, processed);
    } else if step.RecomputeChanged? || step.ExpireStream? {
      PlansTidy(t, owners, step, processed);
    } else if step.DeliverPiece? {
      DeliveryTidy(t, owners, step.key, step.succeeded, processed);
    } else if step.DeliverBlock? || step.DeliverHashFailure? {
      BlocksTidy(t, owners, step, processed);
    } else {
      assert Operate(t, step) == t;
      SamePending(t, t, processed);
    }
  }

  lemma EngineStepKeepsSound(s: State, step: Step)
    requires Sound(s)
    ensures Sound(EngineStep(s, step))
  {
    if Applies(s, step) {
      OperationsTidy(s.tables, s.owners, step, s.processed);
      EngineWorkKeepsSound(s, EngineStep(s, step));
    }
  }

  lemma PruneStepKeepsSound(s: State)
    requires Sound(s)
    ensures Sound(Next(s, PruneWaiters))
  {
    if s.phase == Draining && s.batch == [] {
      PruneKeepsSound(s.tables, s.owners, s.processed);
      EngineWorkKeepsSound(s, Next(s, PruneWaiters));
    }
  }

  lemma StartPollKeepsSound(s: State)
    requires Sound(s)
    ensures Sound(Next(s, StartPoll))
  {
    if s.phase == Idle {
      var s' := s.(batch := s.commands, commands := [], phase := Draining, changed := {}, taken := |s.tables.waiters|);
      assert WaitingSound(s'.tables, false);
      assert QueueSound(s') && HandlersSound(s');
    }
  }

  lemma FinishPollKeepsSound(s: State)
    requires Sound(s)
    ensures Sound(Next(s, FinishPoll))
  {
    var s' := s.(phase := Idle);
    assert s.phase == Settling ==> QueueSound(s') && HandlersSound(s');
  }

  lemma HandlerStepKeepsSound(s: State, step: Step)
    requires Sound(s) && (step.HandlerBegin? || step.HandlerRead? || step.HandlerCancel? || step.HandlerEnd?)
    ensures Sound(Next(s, step))
  {
    match step
    case HandlerBegin(stream) => HandlerBeginKeepsSound(s, stream);
    case HandlerRead(d, piece) => HandlerReadKeepsSound(s, d, piece);
    case HandlerCancel(d) => HandlerCancelKeepsSound(s, d);
    case HandlerEnd(d) => HandlerEndKeepsSound(s, d);
  }

  lemma PollStepKeepsSound(s: State, step: Step)
    requires Sound(s) && (step.StartPoll? || step.Process? || step.PruneWaiters? || step.FinishPoll?)
    ensures Sound(Next(s, step))
  {
    match step
    case StartPoll => StartPollKeepsSound(s);
    case Process(needsData, reading) =>
      if s.phase == Draining && s.batch != [] {
        ProcessKeepsSound(s, needsData, reading);
      }
    case PruneWaiters => PruneStepKeepsSound(s);
    case FinishPoll => FinishPollKeepsSound(s);
  }

  /** Every step, in every interleaving of handlers and engine, keeps the invariant. */
  lemma StepKeepsSound(s: State, step: Step)
    requires Sound(s)
    ensures Sound(Next(s, step))
  {
    if step.HandlerBegin? || step.HandlerRead? || step.HandlerCancel? || step.HandlerEnd? {
      HandlerStepKeepsSound(s, step);
    } else if step.StartPoll? || step.Process? || step.PruneWaiters? || step.FinishPoll? {
      PollStepKeepsSound(s, step);
    } else {
      EngineStepKeepsSound(s, step);
    }
  }

  lemma {:induction false} RunsAreSound(s: State, steps: seq<Step>)
    requires Sound(s)
    ensures Sound(Run(s, steps))
    decreases |steps|
  {
    if steps != [] {
      StepKeepsSound(s, steps[0]);
      RunsAreSound(Next(s, steps[0]), steps[1..]);
    }
  }

  /**
   After every poll of every run: one route per torrent; demands and anchors belong to live routes;
   partial blocks are kept only for pieces somebody waits for; and every registered waiter
   belongs to an active demand of the torrent it waits for.
   */
  lemma AfterEveryPoll(steps: seq<Step>)
    requires Run(INITIAL, steps).phase == Idle
    ensures var t := Run(INITIAL, steps).tables;
      && (forall a, b :: a in t.routes && b in t.routes && t.routes[a] == t.routes[b] ==> a == b)
      && (forall d :: d in t.demands ==> RouteLive(t, t.demands[d].route))
      && (forall id :: id in t.anchors ==> t.anchors[id].route.torrent == id && RouteLive(t, t.anchors[id].route))
      && (forall k :: k in t.partial ==> k in t.waiting && t.waiting[k] != [])
      && (forall k, w :: k in t.waiting && w in t.waiting[k] ==>
          w < |t.waiters| && ActiveFor(t, t.waiters[w].demand, k.torrent))
  {
    RunsAreSound(INITIAL, steps);
    var t := Run(INITIAL, steps).tables;
    forall k, w | k in t.waiting && w in t.waiting[k]
      ensures w < |t.waiters| && ActiveFor(t, t.waiters[w].demand, k.torrent)
    {
      assert Entry(t, k, w, true);
    }
  }

  // ----- what no step undoes -----

  ghost predicate WaitersEvolve(ws: seq<Waiter>, ws': seq<Waiter>) {
    && |ws| <= |ws'|
    && forall w :: 0 <= w < |ws| ==>
         && ws'[w].demand == ws[w].demand && ws'[w].key == ws[w].key
         && (ws[w].cancelled ==> ws'[w].cancelled)
         && (ws[w].outcome.Some? ==> ws'[w].outcome == ws[w].outcome)
  }

  predicate Retired(s: State, stream: Stream) {
    stream in s.owners && stream !in s.tables.routes
  }

  ghost predicate Evolves(s: State, s': State) {
    && WaitersEvolve(s.tables.waiters, s'.tables.waiters) && s.taken <= s'.taken
    && (forall d :: d in s.handlers ==> d in s'.handlers && s'.handlers[d].route == s.handlers[d].route)
    && (forall stream :: Retired(s, stream) ==> Retired(s', stream))
  }

  lemma RoutesAfterOperation(t: Tables, step: Step, stream: Stream)
    requires stream in Operate(t, step).routes
    ensures stream in t.routes || (step.Register? && stream == step.route.stream)
  {
  }

  lemma SettlingEvolves(ws: seq<Waiter>, ws': seq<Waiter>)
    requires Settles(ws, ws')
    ensures WaitersEvolve(ws, ws')
  {
  }

  lemma OperationEvolves(t: Tables, owners: map<Stream, Torrent>, step: Step, processed: nat)
    requires TablesSound(t, owners, true) && PendingSound(t, processed)
    requires step.Register? ==> step.route.stream !in owners
    ensures WaitersEvolve(t.waiters, Operate(t, step).waiters)
  {
    OperationsTidy(t, owners, step, processed);
    SettlingEvolves(t.waiters, Operate(t, step).waiters);
  }

  lemma OperationRetires(t: Tables, owners: map<Stream, Torrent>, step: Step, stream: Stream)
    requires step.Register? ==> step.route.stream !in owners
    requires stream in owners && stream !in t.routes
    ensures stream in OwnersAfter(owners, step) && stream !in Operate(t, step).routes
  {
    if stream in Operate(t, step).routes {
      RoutesAfterOperation(t, step, stream);
    }
  }

  lemma EngineStepEvolves(s: State, step: Step)
    requires Sound(s)
    ensures Evolves(s, EngineStep(s, step))
  {
    if Applies(s, step) {
      OperationEvolves(s.tables, s.owners, step, s.processed);
      forall stream | Retired(s, stream) ensures Retired(EngineStep(s, step), stream) {
        OperationRetires(s.tables, s.owners, step, stream);
      }
    }
  }

  lemma HandlerStepEvolves(s: State, step: Step)
    requires s.nextDemand !in s.handlers
    requires step.HandlerBegin? || step.HandlerRead? || step.HandlerCancel? || step.HandlerEnd?
    ensures Evolves(s, Next(s, step))
  {
    match step
    case HandlerBegin(stream) =>
    case HandlerRead(d, piece) =>
    case HandlerCancel(d) =>
    case HandlerEnd(d) =>
  }

  lemma ProcessedWaiters(t: Tables, c: Command, needsData: bool, reading: Reading)
    ensures WaitersEvolve(t.waiters, ProcessCommand(t, c, needsData, reading).waiters)
    ensures ProcessCommand(t, c, needsData, reading).routes == t.routes
  {
    if c.ReadPiece? {
      ReadWaiters(t, c, reading);
    }
  }

  lemma ReadWaiters(t: Tables, c: Command, reading: Reading)
    requires c.ReadPiece?
    ensures WaitersEvolve(t.waiters, ProcessRead(t, c, reading).waiters)
  {
    CompletedEvolves(t.waiters, c.waiter, Failed);
    CompletedEvolves(t.waiters, c.waiter, Data(c.key));
    if c.demand !in t.demands || c.demand in t.cancelled || c.key.torrent in t.revoked || reading.Unusable? {
      assert ProcessRead(t, c, reading).waiters == CompleteOne(t.waiters, c.waiter, Failed);
    } else if reading.Cached? {
      assert ProcessRead(t, c, reading).waiters == CompleteOne(t.waiters, c.waiter, Data(c.key));
    } else {
      assert ProcessRead(t, c, reading).waiters == t.waiters;
    }
  }

  lemma CompletedEvolves(ws: seq<Waiter>, w: nat, outcome: Outcome)
    ensures WaitersEvolve(ws, CompleteOne(ws, w, outcome))
  {
  }

  lemma ProcessEvolves(s: State, needsData: bool, reading: Reading)
    ensures Evolves(s, ProcessStep(s, needsData, reading))
  {
    if s.phase == Draining && s.batch != [] {
      ProcessedWaiters(s.tables, s.batch[0], needsData, reading);
    }
  }

  lemma PollStepEvolves(s: State, step: Step)
    requires s.taken <= |s.tables.waiters| && (step.StartPoll? || step.PruneWaiters? || step.FinishPoll?)
    ensures Evolves(s, Next(s, step))
  {
    match step
    case StartPoll =>
    case PruneWaiters => assert Prune(s.tables).waiters == s.tables.waiters;
    case FinishPoll =>
  }

  /** Completions are final, routes of handlers fixed, and retired streams never come back. */
  lemma StepEvolves(s: State, step: Step)
    requires Sound(s)
    ensures Evolves(s, Next(s, step))
  {
    if step.HandlerBegin? || step.HandlerRead? || step.HandlerCancel? || step.HandlerEnd? {
      assert s.nextDemand in s.handlers ==> HandlerSound(s, s.nextDemand, s.handlers[s.nextDemand]);
      HandlerStepEvolves(s, step);
    } else if step.Process? {
      ProcessEvolves(s, step.needsData, step.reading);
    } else if step.StartPoll? || step.PruneWaiters? || step.FinishPoll? {
      TakenBound(s);
      PollStepEvolves(s, step);
    } else {
      EngineStepEvolves(s, step);
    }
  }

  lemma {:induction false} ReadsOrdered(q: seq<Command>, low: nat, high: nat)
    requires ReadsAre(q, low, high)
    ensures low <= high
  {
    if q != [] {
      ReadsOrdered(q[1..], if q[0].ReadPiece? then low + 1 else low, high);
    }
  }

  lemma TakenBound(s: State)
    requires Sound(s)
    ensures s.processed <= s.taken <= |s.tables.waiters|
  {
    ReadsOrdered(s.batch, s.processed, s.taken);
    ReadsOrdered(s.commands, s.taken, |s.tables.waiters|);
  }

  lemma {:induction false} RunEvolves(s: State, steps: seq<Step>)
    requires Sound(s)
    ensures Sound(Run(s, steps)) && Evolves(s, Run(s, steps))
    decreases |steps|
  {
    if steps != [] {
      StepKeepsSound(s, steps[0]);
      StepEvolves(s, steps[0]);
      RunEvolves(Next(s, steps[0]), steps[1..]);
    }
  }

  // ----- retired streams -----

  /** The handler that made waiter `w` serves the stream. */
  predicate WaitsFor(s: State, w: nat, stream: Stream) {
    && w < |s.tables.waiters| && s.tables.waiters[w].demand in s.handlers
    && s.handlers[s.tables.waiters[w].demand].route.stream == stream
  }

  ghost predicate HasNothing(s: State, stream: Stream) {
    && stream !in s.tables.routes
    && (forall d :: d in s.tables.demands ==> s.tables.demands[d].route.stream != stream)
    && (forall id :: id in s.tables.anchors ==> s.tables.anchors[id].route.stream != stream)
    && (s.phase != Draining ==> forall w :: w in Registered(s.tables) ==> !WaitsFor(s, w, stream))
  }

  lemma RetiredHasNothing(s: State, stream: Stream)
    requires Sound(s) && Retired(s, stream)
    ensures HasNothing(s, stream)
  {
    var t := s.tables;
    if s.phase != Draining {
      forall w | w in Registered(t) ensures !WaitsFor(s, w, stream) {
        assert Entry(t, t.waiters[w].key, w, true);
        assert RouteLive(t, t.demands[t.waiters[w].demand].route);
      }
    }
  }

  /** Once retired, a stream never again has a route, a demand, an anchor or a waiter. */
  lemma RetiredForever(before: seq<Step>, stream: Stream, after: seq<Step>)
    requires Retired(Run(INITIAL, before), stream)
    ensures HasNothing(Run(Run(INITIAL, before), after), stream)
  {
    var s := Run(INITIAL, before);
    RunsAreSound(INITIAL, before);
    RunEvolves(s, after);
    RetiredHasNothing(Run(s, after), stream);
  }

  lemma SameRoutes(t: Tables, id: Torrent, planned: bool)
    ensures Recompute(t, id, planned).routes == t.routes
  {
  }

  lemma EngineNext(s: State, step: Step)
    requires s.phase == Idle && (step.Stop? || step.Remove? || (step.Register? && step.route.stream !in s.owners))
    ensures Next(s, step).tables == Operate(s.tables, step)
    ensures forall stream :: stream in s.owners ==> stream in Next(s, step).owners
  {
  }

  /** A stream is retired by stopping it. */
  lemma StopRetires(s: State, stream: Stream, planned: bool)
    requires s.phase == Idle && stream in s.owners
    ensures Retired(Next(s, Stop(stream, planned)), stream)
  {
    EngineNext(s, Stop(stream, planned));
    assert stream !in StopStreams(s.tables, {stream}).routes;
    if stream in s.tables.routes {
      SameRoutes(StopStreams(s.tables, {stream}), s.tables.routes[stream], planned);
    }
  }

  lemma ClearedRoutes(t: Tables, id: Torrent, stream: Stream)
    requires stream in t.routes ==> t.routes[stream] == id
    ensures stream !in Cleared(t, id).routes
  {
  }

  /** Removing a torrent retires its stream. */
  lemma RemovalRetires(s: State, stream: Stream, planned: bool)
    requires s.phase == Idle && stream in s.owners
    requires stream in s.tables.routes ==> s.tables.routes[stream] == s.owners[stream]
    ensures Retired(Next(s, Remove(s.owners[stream], planned)), stream)
  {
    EngineNext(s, Remove(s.owners[stream], planned));
    ClearedRoutes(s.tables, s.owners[stream], stream);
    SameRoutes(Cleared(s.tables, s.owners[stream]), s.owners[stream], planned);
  }

  /** Registering another stream for the torrent retires the previous one. */
  lemma RegistrationRetires(s: State, stream: Stream, r: Route, nonEmpty: bool, planned: bool)
    requires s.phase == Idle && stream in s.owners
    requires stream in s.tables.routes ==> s.tables.routes[stream] == s.owners[stream]
    requires r.torrent == s.owners[stream] && r.stream !in s.owners
    ensures Retired(Next(s, Register(r, nonEmpty, planned)), stream)
  {
    EngineNext(s, Register(r, nonEmpty, planned));
    RegisteredRoutes(s.tables, r, nonEmpty, planned, stream);
  }

  lemma RegisteredRoutes(t: Tables, r: Route, nonEmpty: bool, planned: bool, stream: Stream)
    requires stream in t.routes ==> t.routes[stream] == r.torrent
    requires stream != r.stream
    ensures stream !in RegisterStream(t, r, nonEmpty, planned).routes
  {
    var previous := set a | a in t.routes && t.routes[a] == r.torrent;
    var u := StopStreams(t, previous);
    assert u.routes == t.routes - previous;
    var v := u.(routes := u.routes[r.stream := r.torrent], revoked := u.revoked - {r.torrent});
    SameRoutes(v.(anchors := v.anchors[r.torrent := StreamAnchor(r, true)]), r.torrent, planned);
  }

  /** A stream without demands that a poll lets expire is retired. */
  lemma ExpiryRetires(s: State, stream: Stream, planned: bool)
    requires Sound(s) && s.phase == Settling && s.changed == {} && stream in s.tables.routes
    ensures Retired(Next(s, ExpireStream(stream, planned)), stream) <==> DemandsOf(s.tables, {stream}) == {}
  {
  }

  /** Between polls, whoever still waits and was enqueued before the last poll waits for a live stream. */
  lemma WaitingIsLive(s: State, w: nat)
    requires Sound(s) && s.phase == Idle && w < s.taken && w < |s.tables.waiters| && Open(s.tables.waiters[w])
    ensures w in Registered(s.tables) && ActiveFor(s.tables, s.tables.waiters[w].demand, s.tables.waiters[w].key.torrent)
    ensures RouteLive(s.tables, s.tables.demands[s.tables.waiters[w].demand].route)
  {
    assert s.processed == s.taken;
    assert Entry(s.tables, s.tables.waiters[w].key, w, true);
  }

  lemma RetiredIsSettled(s: State, stream: Stream, w: nat)
    requires Sound(s) && s.phase == Idle && Retired(s, stream) && WaitsFor(s, w, stream) && w < s.taken
    ensures !Open(s.tables.waiters[w])
  {
    RetiredHasNothing(s, stream);
    if Open(s.tables.waiters[w]) {
      WaitingIsLive(s, w);
    }
  }

  function PollStarted(s: State): State {
    s.(batch := s.commands, commands := [], phase := Draining, changed := {}, taken := |s.tables.waiters|)
  }

  lemma StartPollTakes(s: State)
    requires s.phase == Idle
    ensures Next(s, StartPoll) == PollStarted(s)
  {
  }

  lemma SettledByPoll(s: State, s1: State, s2: State, stream: Stream, w: nat)
    requires Retired(s, stream) && WaitsFor(s, w, stream) && Evolves(s, s1) && Evolves(PollStarted(s1), s2)
    requires Sound(s2) && s2.phase == Idle
    ensures w < |s2.tables.waiters| && !Open(s2.tables.waiters[w])
  {
    assert WaitsFor(s1, w, stream) && Retired(s1, stream);
    assert Retired(PollStarted(s1), stream);
    RetiredIsSettled(s2, stream, w);
  }

  /**
   No lost wake-up: when a stream is retired, every waiter its handlers hold or still have queued
   is completed or abandoned once the next poll is over, whatever happens meanwhile.
   */
  lemma NoReaderLeftWaiting(before: seq<Step>, stream: Stream, w: nat, first: seq<Step>, second: seq<Step>)
    requires Retired(Run(INITIAL, before), stream) && WaitsFor(Run(INITIAL, before), w, stream)
    requires var s1 := Run(Run(INITIAL, before), first);
      s1.phase == Idle && Run(Next(s1, StartPoll), second).phase == Idle
    ensures var s2 := Run(Next(Run(Run(INITIAL, before), first), StartPoll), second);
      w < |s2.tables.waiters| && !Open(s2.tables.waiters[w])
  {
    var s := Run(INITIAL, before);
    RunsAreSound(INITIAL, before);
    RunEvolves(s, first);
    var s1 := Run(s, first);
    StepKeepsSound(s1, StartPoll);
    StartPollTakes(s1);
    RunEvolves(Next(s1, StartPoll), second);
    var s2 := Run(Next(s1, StartPoll), second);
    SettledByPoll(s, s1, s2, stream, w);
  }

  /** A completed waiter keeps its outcome for ever, and the data is that of the piece it asked for. */
  lemma CompletedOnce(before: seq<Step>, after: seq<Step>, w: nat)
    requires w < |Run(INITIAL, before).tables.waiters| && Run(INITIAL, before).tables.waiters[w].outcome.Some?
    ensures var x, s' := Run(INITIAL, before).tables.waiters[w], Run(Run(INITIAL, before), after);
      && w < |s'.tables.waiters| && s'.tables.waiters[w].outcome == x.outcome && s'.tables.waiters[w].key == x.key
      && (x.outcome.value.Data? ==> x.outcome.value.key == x.key)
  {
    RunsAreSound(INITIAL, before);
    RunEvolves(Run(INITIAL, before), after);
    assert OutcomeSound(Run(INITIAL, before).tables.waiters[w]);
  }
}
