/**
 The engine side of the stream bridge as it runs: tables changed in place, with loops over the
 piece waiters and the active demands.  Every method is proved against the protocol's functions.
 */
module StreamBridgeEngine {
  import opened Common
  import opened StreamBridge
  import opened StreamBridgeSafety
  import opened StreamBridgePlanning

  // ----- completing waiters piece by piece -----

  /** Registered waiters are filed under the piece they wait for. */
  ghost predicate Keyed(t: Tables) {
    && (forall k :: k in t.waiting ==> t.waiting[k] != [])
    && (forall k, w :: k in t.waiting && w in t.waiting[k] ==> Filed(t, k, w))
  }

  predicate Filed(t: Tables, k: Key, w: nat) {
    w < |t.waiters| && t.waiters[w].key == k
  }

  /** The waiters of a line that belong to the demand, or all of them. */
  function Chosen(ws: seq<Waiter>, line: seq<nat>, demand: Option<nat>): set<nat> {
    set w | w in line && w < |ws| && (demand.Some? ==> ws[w].demand == demand.value)
  }

  lemma CompleteTwice(ws: seq<Waiter>, a: set<nat>, b: set<nat>, outcome: Outcome)
    ensures CompleteWhere(CompleteWhere(ws, a, outcome), b, outcome) == CompleteWhere(ws, a + b, outcome)
  {
  }

  lemma CompleteNone(ws: seq<Waiter>, outcome: Outcome)
    ensures CompleteWhere(ws, {}, outcome) == ws
  {
  }

  lemma WithoutCons(x: nat, s: seq<nat>, dropped: set<nat>)
    ensures Without([x] + s, dropped) == (if x in dropped then [] else [x]) + Without(s, dropped)
  {
    assert ([x] + s)[1..] == s;
  }

  lemma Regroup(a: seq<nat>, b: seq<nat>, c: seq<nat>)
    ensures (a + b) + c == a + (b + c)
  {
  }

  lemma {:induction false} WithoutAppend(s: seq<nat>, x: nat, dropped: set<nat>)
    ensures Without(s + [x], dropped) == Without(s, dropped) + (if x in dropped then [] else [x])
  {
    var tail := if x in dropped then [] else [x];
    if s == [] {
      WithoutCons(x, [], dropped);
      assert s + [x] == [x] + [];
    } else {
      var head := if s[0] in dropped then [] else [s[0]];
      calc {
        Without(s + [x], dropped);
        { assert s + [x] == [s[0]] + (s[1..] + [x]); WithoutCons(s[0], s[1..] + [x], dropped); }
        head + Without(s[1..] + [x], dropped);
        { WithoutAppend(s[1..], x, dropped); }
        head + (Without(s[1..], dropped) + tail);
        { Regroup(head, Without(s[1..], dropped), tail); }
        (head + Without(s[1..], dropped)) + tail;
      }
    }
  }

  lemma {:induction false} WithoutTwice(s: seq<nat>, a: set<nat>, b: set<nat>)
    ensures Without(Without(s, a), b) == Without(s, a + b)
  {
    if s != [] {
      WithoutTwice(s[1..], a, b);
      if s[0] !in a {
        var kept := Without(s, a);
        assert kept == [s[0]] + Without(s[1..], a);
        assert kept[0] == s[0] && kept[1..] == Without(s[1..], a);
      } else {
        assert Without(s, a) == Without(s[1..], a);
      }
    }
  }

  /** The registered waiters in `dropped` are completed and leave. */
  function Released(t: Tables, dropped: set<nat>): Tables {
    Unregister(t, dropped).(waiters := CompleteWhere(t.waiters, dropped * Registered(t), Failed))
  }

  function LeavingAt(t: Tables, dropped: set<nat>, done: set<Key>): set<nat> {
    set w | w in dropped && w in Registered(t) && t.waiters[w].key in done
  }

  /** ... so far only under the pieces in `done`. */
  function ReleasedAt(t: Tables, dropped: set<nat>, done: set<Key>): Tables {
    t.(waiting := map k | k in t.waiting && (k in done ==> Without(t.waiting[k], dropped) != []) ::
         if k in done then Without(t.waiting[k], dropped) else t.waiting[k],
       partial := map k | k in t.partial && !(k in t.waiting && k in done && Without(t.waiting[k], dropped) == []) ::
         t.partial[k],
       waiters := CompleteWhere(t.waiters, LeavingAt(t, dropped, done), Failed))
  }

  lemma ReleaseStarts(t: Tables, dropped: set<nat>)
    ensures ReleasedAt(t, dropped, {}) == t
  {
    assert LeavingAt(t, dropped, {}) == {};
    CompleteNone(t.waiters, Failed);
  }

  lemma ReleaseEnds(t: Tables, dropped: set<nat>)
    ensures ReleasedAt(t, dropped, t.waiting.Keys) == Released(t, dropped)
  {
    assert LeavingAt(t, dropped, t.waiting.Keys) == dropped * Registered(t);
  }

  lemma ReleaseWaiters(t: Tables, dropped: set<nat>, done: set<Key>, key: Key, chosen: set<nat>)
    requires chosen == LeavingAt(t, dropped, {key})
    ensures CompleteWhere(ReleasedAt(t, dropped, done).waiters, chosen, Failed) ==
      ReleasedAt(t, dropped, done + {key}).waiters
  {
    var before := LeavingAt(t, dropped, done);
    var after := LeavingAt(t, dropped, done + {key});
    assert after == before + chosen;
    CompleteTwice(t.waiters, before, chosen, Failed);
  }

  /** One more piece is dealt with. */
  lemma ReleaseNext(t: Tables, dropped: set<nat>, done: set<Key>, key: Key)
    requires key in t.waiting && key !in done
    ensures key in ReleasedAt(t, dropped, done).waiting && ReleasedAt(t, dropped, done).waiting[key] == t.waiting[key]
    ensures var u, kept := ReleasedAt(t, dropped, done), Without(t.waiting[key], dropped);
      var u' := ReleasedAt(t, dropped, done + {key});
      && u'.waiting == (if kept == [] then u.waiting - {key} else u.waiting[key := kept])
      && u'.partial == (if kept == [] then u.partial - {key} else u.partial)
  {
  }

  // ----- the engine -----

  class Engine {
    var routes: map<Stream, Torrent>
    var demands: map<nat, Demand>
    var anchors: map<Torrent, StreamAnchor>
    var waiting: map<Key, seq<nat>>
    var partial: map<Key, seq<bool>>
    var revoked: set<Torrent>
    var cancelled: set<nat>
    var waiters: seq<Waiter>

    ghost function View(): Tables
      reads this
    {
      Tables(routes, demands, anchors, waiting, partial, revoked, cancelled, waiters)
    }

    constructor ()
      ensures View() == INITIAL.tables
    {
      routes, demands, anchors, waiting, partial := map[], map[], map[], map[], map[];
      revoked, cancelled, waiters := {}, {}, [];
    }

    method CompleteLine(line: seq<nat>, demand: Option<nat>, outcome: Outcome)
      requires forall w :: w in line ==> w < |waiters|
      modifies this`waiters
      ensures waiters == CompleteWhere(old(waiters), Chosen(old(waiters), line, demand), outcome)
    {
      ghost var ws := waiters;
      CompleteNone(ws, outcome);
      assert Chosen(ws, line[..0], demand) == {};
      for i := 0 to |line|
        invariant waiters == CompleteWhere(ws, Chosen(ws, line[..i], demand), outcome)
      {
        var w := line[i];
        assert line[..i + 1] == line[..i] + [w];
        assert w in line;
        if demand == None || waiters[w].demand == demand.value {
          waiters := waiters[w := Complete(waiters[w], outcome)];
          assert Chosen(ws, line[..i + 1], demand) == Chosen(ws, line[..i], demand) + {w};
        } else {
          assert Chosen(ws, line[..i + 1], demand) == Chosen(ws, line[..i], demand);
        }
      }
      assert line[..|line|] == line;
    }

    /** The waiters of a line that belong to other demands. */
    method OthersOf(line: seq<nat>, demand: nat) returns (kept: seq<nat>)
      requires forall w :: w in line ==> w < |waiters|
      ensures kept == Without(line, Chosen(waiters, line, Some(demand)))
    {
      ghost var dropped := Chosen(waiters, line, Some(demand));
      kept := [];
      for i := 0 to |line|
        invariant kept == Without(line[..i], dropped)
      {
        assert line[..i + 1] == line[..i] + [line[i]];
        assert line[i] in line;
        WithoutAppend(line[..i], line[i], dropped);
        if waiters[line[i]].demand != demand {
          kept := kept + [line[i]];
        }
      }
      assert line[..|line|] == line;
    }

    method File(key: Key, kept: seq<nat>)
      modifies this`waiting, this`partial
      ensures waiting == if kept == [] then old(waiting) - {key} else old(waiting)[key := kept]
      ensures partial == if kept == [] then old(partial) - {key} else old(partial)
    {
      if kept == [] {
        partial := partial - {key};
        waiting := waiting - {key};
      } else {
        waiting := waiting[key := kept];
      }
    }

    /** The demand's waiters under one piece. */
    method CancelUnder(key: Key, demand: nat, ghost t: Tables, ghost done: set<Key>)
      requires Keyed(t) && key in t.waiting && key !in done
      requires View() == ReleasedAt(t, WaitersOf(t, {demand}), done)
      modifies this`waiting, this`partial, this`waiters
      ensures View() == ReleasedAt(t, WaitersOf(t, {demand}), done + {key})
    {
      ReleaseOne(t, done, key, demand);
      var line := waiting[key];
      CompleteLine(line, Some(demand), Failed);
      var kept := OthersOf(line, demand);
      File(key, kept);
    }

    method CancelDemandWaiters(demand: nat)
      requires Keyed(View())
      modifies this`waiting, this`partial, this`waiters
      ensures View() == Released(old(View()), WaitersOf(old(View()), {demand}))
    {
      ghost var t := View();
      ghost var dropped := WaitersOf(t, {demand});
      ghost var done: set<Key> := {};
      var keys := waiting.Keys;
      ReleaseStarts(t, dropped);
      while keys != {}
        invariant done !! keys && done + keys == t.waiting.Keys
        invariant View() == ReleasedAt(t, dropped, done)
        decreases |keys|
      {
        var key :| key in keys;
        CancelUnder(key, demand, t, done);
        keys, done := keys - {key}, done + {key};
      }
      assert done == t.waiting.Keys;
      ReleaseEnds(t, dropped);
    }

    /** One more demand is told to give up and leaves, together with its waiters. */
    method CancelDemand(d: nat, ghost t: Tables, ghost gone: set<nat>)
      requires Keyed(t) && View() == CancelDemands(t, gone)
      modifies this`demands, this`cancelled, this`waiting, this`partial, this`waiters
      ensures View() == CancelDemands(t, gone + {d})
    {
      CancelNext(t, gone, d);
      cancelled := cancelled + {d};
      CancelDemandWaiters(d);
      demands := demands - {d};
    }

    method CancelDemandsOf(stream: Stream)
      requires Keyed(View())
      modifies this`demands, this`cancelled, this`waiting, this`partial, this`waiters
      ensures View() == CancelDemands(old(View()), DemandsOf(old(View()), {stream}))
    {
      ghost var t := View();
      ghost var gone: set<nat> := {};
      var ids := demands.Keys;
      CancelNothing(t);
      while ids != {}
        invariant ids <= t.demands.Keys && gone == DemandsOf(t, {stream}) - ids
        invariant View() == CancelDemands(t, gone)
        decreases |ids|
      {
        var d :| d in ids;
        StillThere(t, stream, ids, gone, d);
        if demands[d].route.stream == stream {
          CancelDemand(d, t, gone);
          gone := gone + {d};
        }
        ids := ids - {d};
      }
      assert DemandsOf(t, {stream}) - {} == DemandsOf(t, {stream});
    }

    method DropRoute(stream: Stream)
      modifies this`routes, this`anchors
      ensures View() == WithoutRoute(old(View()), stream)
    {
      anchors := map id | id in anchors && anchors[id].route.stream !in {stream} :: anchors[id];
      routes := routes - {stream};
    }

    method EndStream(stream: Stream)
      requires Keyed(View())
      modifies this
      ensures View() == StopStreams(old(View()), {stream})
    {
      StopUnfolds(View(), stream);
      DropRoute(stream);
      CancelDemandsOf(stream);
    }

    /** Stopping a stream ends its part of the tables and makes a new plan for its torrent. */
    method StopStream(stream: Stream, planned: bool)
      requires Keyed(View())
      modifies this
      ensures View() == StreamBridge.StopStream(old(View()), stream, planned)
    {
      if stream in routes {
        var id := routes[stream];
        EndStream(stream);
        Recompute(id, planned);
      } else {
        EndStream(stream);
      }
    }

    method StreamsOf(id: Torrent) returns (previous: set<Stream>)
      ensures previous == StreamsFor(View(), id)
    {
      previous := {};
      var todo := routes.Keys;
      while todo != {}
        invariant todo <= routes.Keys
        invariant forall x :: x in previous <==> x in routes && x !in todo && routes[x] == id
        decreases |todo|
      {
        var x :| x in todo;
        if routes[x] == id {
          previous := previous + {x};
        }
        todo := todo - {x};
      }
    }

    /** The torrent's previous streams are stopped, one after the other, before the new one is entered. */
    method StopPrevious(id: Torrent, planned: bool, ghost owners: map<Stream, Torrent>)
      requires TablesSound(View(), owners, true)
      modifies this
      ensures View() == StopStreams(old(View()), StreamsFor(old(View()), id))
    {
      ghost var t := View();
      TablesAreKeyed(t, owners);
      var previous := StreamsOf(id);
      ghost var all := previous;
      AtMostOne(t, owners, id);
      StopNothing(t);
      while previous != {}
        invariant previous == all || previous == {}
        invariant previous == all ==> View() == t
        invariant previous == {} ==> View() == StopStreams(t, all)
        decreases |previous|
      {
        var x :| x in previous;
        StopOnly(t, owners, id, x, planned);
        StopStream(x, planned);
        previous := previous - {x};
      }
    }

    method Enter(r: Route)
      modifies this`routes, this`revoked
      ensures routes == old(routes)[r.stream := r.torrent] && revoked == old(revoked) - {r.torrent}
    {
      routes := routes[r.stream := r.torrent];
      revoked := revoked - {r.torrent};
    }

    method RegisterStream(r: Route, nonEmpty: bool, planned: bool, ghost owners: map<Stream, Torrent>)
      requires TablesSound(View(), owners, true)
      modifies this
      ensures View() == StreamBridge.RegisterStream(old(View()), r, nonEmpty, planned)
    {
      StopPrevious(r.torrent, planned, owners);
      Enter(r);
      if nonEmpty {
        anchors := anchors[r.torrent := StreamAnchor(r, true)];
        Recompute(r.torrent, planned);
      }
    }

    /** A read of the piece has ended: everybody waiting for it is told. */
    method FinishPieceRead(key: Key, outcome: Outcome)
      requires Keyed(View())
      modifies this`waiting, this`partial, this`waiters
      ensures View() == FinishPiece(old(View()), key, outcome)
    {
      ghost var t := View();
      partial := partial - {key};
      if key in waiting {
        forall w | w in waiting[key] ensures w < |waiters| {
          assert Filed(t, key, w);
        }
        assert Chosen(waiters, waiting[key], None) == WaitersFor(t, key);
        CompleteLine(waiting[key], None, outcome);
        waiting := waiting - {key};
      } else {
        assert WaitersFor(t, key) == {};
        CompleteNone(waiters, outcome);
        assert t.waiting - {key} == t.waiting;
      }
    }

    method PruneUnder(key: Key, ghost t: Tables, ghost done: set<Key>)
      requires Keyed(t) && key in t.waiting && key !in done
      requires View() == ReleasedAt(t, CancelledWaiters(t), done)
      modifies this`waiting, this`partial
      ensures View() == ReleasedAt(t, CancelledWaiters(t), done + {key})
    {
      PruneOne(t, done, key);
      var kept := UncancelledOf(waiting[key]);
      File(key, kept);
    }

    /** Abandoned waiters leave every line. */
    method PruneCancelledWaiters()
      requires Keyed(View())
      modifies this`waiting, this`partial
      ensures View() == Prune(old(View()))
    {
      ghost var t := View();
      ghost var dropped := CancelledWaiters(t);
      ghost var done: set<Key> := {};
      var keys := waiting.Keys;
      PrunedWaiters(t, done);
      ReleaseStarts(t, dropped);
      while keys != {}
        invariant done !! keys && done + keys == t.waiting.Keys
        invariant View() == ReleasedAt(t, dropped, done)
        decreases |keys|
      {
        var key :| key in keys;
        PruneUnder(key, t, done);
        keys, done := keys - {key}, done + {key};
      }
      assert done == t.waiting.Keys;
      ReleaseEnds(t, dropped);
      PrunedWaiters(t, done);
    }

    method UncancelledOf(line: seq<nat>) returns (kept: seq<nat>)
      requires forall w :: w in line ==> w < |waiters|
      ensures kept == Without(line, CancelledIn(waiters, line))
    {
      ghost var dropped := CancelledIn(waiters, line);
      kept := [];
      for i := 0 to |line|
        invariant kept == Without(line[..i], dropped)
      {
        assert line[..i + 1] == line[..i] + [line[i]];
        assert line[i] in line;
        WithoutAppend(line[..i], line[i], dropped);
        if !waiters[line[i]].cancelled {
          kept := kept + [line[i]];
        }
      }
      assert line[..|line|] == line;
    }

    method EndDemand(d: nat)
      modifies this`demands, this`cancelled
      ensures demands == old(demands) - {d} && cancelled == old(cancelled) + {d}
    {
      cancelled := cancelled + {d};
      demands := demands - {d};
    }

    method EndDemandsOf(id: Torrent)
      modifies this`demands, this`cancelled
      ensures demands == old(demands) - DemandsOn(old(demands), id)
      ensures cancelled == old(cancelled) + DemandsOn(old(demands), id)
    {
      ghost var before, told := demands, cancelled;
      var ids := demands.Keys;
      NobodyGone(before, told, id);
      while ids != {}
        invariant ids <= before.Keys && EndedBut(before, told, id, ids, demands, cancelled)
        decreases |ids|
      {
        var d :| d in ids;
        OneMoreEnded(before, told, id, ids, demands, cancelled, d);
        if demands[d].route.torrent == id {
          EndDemand(d);
        }
        ids := ids - {d};
      }
      assert DemandsOn(before, id) - {} == DemandsOn(before, id);
    }

    method DismissUnder(key: Key, ghost t: Tables, ghost done: set<Key>)
      requires Keyed(t) && key in t.waiting && key !in done && View() == DismissedAt(t, done)
      modifies this`waiting, this`waiters
      ensures View() == DismissedAt(t, done + {key})
    {
      DismissNext(t, done, key);
      CompleteLine(waiting[key], None, Failed);
      waiting := waiting - {key};
    }

    /** Everybody waiting for a piece of the torrent is told. */
    method DismissWaitersOn(id: Torrent)
      requires Keyed(View())
      modifies this`waiting, this`waiters
      ensures View() == DismissedAt(old(View()), PiecesOn(old(View()), id))
    {
      ghost var t := View();
      ghost var done: set<Key> := {};
      var keys := waiting.Keys;
      DismissNothing(t);
      while keys != {}
        invariant keys <= t.waiting.Keys && done == PiecesOn(t, id) - keys
        invariant View() == DismissedAt(t, done)
        decreases |keys|
      {
        var key :| key in keys;
        if key.torrent == id {
          DismissUnder(key, t, done);
          done := done + {key};
        }
        keys := keys - {key};
      }
      assert done == PiecesOn(t, id);
    }

    method Revoke(id: Torrent)
      modifies this`revoked, this`anchors, this`partial, this`routes
      ensures revoked == old(revoked) + {id} && anchors == old(anchors) - {id}
      ensures partial == map k | k in old(partial) && k.torrent != id :: old(partial)[k]
      ensures routes == map s | s in old(routes) && old(routes)[s] != id :: old(routes)[s]
    {
      revoked := revoked + {id};
      anchors := anchors - {id};
      partial := map k | k in partial && k.torrent != id :: partial[k];
      routes := map s | s in routes && routes[s] != id :: routes[s];
    }

    method RemoveTorrent(id: Torrent, planned: bool)
      requires Keyed(View())
      modifies this
      ensures View() == StreamBridge.RemoveTorrent(old(View()), id, planned)
    {
      ClearTorrent(id);
      Recompute(id, planned);
    }

    method ClearTorrent(id: Torrent)
      requires Keyed(View())
      modifies this
      ensures View() == Cleared(old(View()), id)
    {
      ghost var t := View();
      Revoke(id);
      EndDemandsOf(id);
      SameLines(t, View());
      DismissWaitersOn(id);
      ClearedByParts(t, id);
    }

    /** The torrent is anchored at its newest demand that lacks data. */
    method Recompute(id: Torrent, planned: bool)
      modifies this`anchors
      ensures View() == StreamBridge.Recompute(old(View()), id, planned)
    {
      var focus: Option<nat> := None;
      var ids := demands.Keys;
      while ids != {}
        invariant ids <= demands.Keys
        invariant focus.None? ==> forall d :: d in demands.Keys - ids ==> !Lacking(View(), id, d)
        invariant focus.Some? ==> Lacking(View(), id, focus.value) &&
                                  forall d :: d in demands.Keys - ids && Lacking(View(), id, d) ==> d <= focus.value
        invariant View() == old(View())
        decreases |ids|
      {
        var d :| d in ids;
        if demands[d].route.torrent == id && demands[d].needsData && (focus.None? || focus.value < d) {
          focus := Some(d);
        }
        ids := ids - {d};
      }
      FocusFound(View(), id, focus);
      if planned && focus.Some? {
        anchors := anchors[id := StreamAnchor(demands[focus.value].route, false)];
      }
    }

    /** A read command: an answer at once, or a place in the line of its piece. */
    method ProcessPieceRequest(c: Command, reading: Reading)
      requires c.ReadPiece? && c.waiter < |waiters|
      modifies this`demands, this`waiting, this`partial, this`waiters
      ensures View() == ProcessRead(old(View()), c, reading)
    {
      if c.demand !in demands || c.demand in cancelled || c.key.torrent in revoked || reading.Unusable? {
        waiters := waiters[c.waiter := Complete(waiters[c.waiter], Failed)];
        return;
      }
      if reading.Cached? {
        demands := demands[c.demand := demands[c.demand].(needsData := false)];
        waiters := waiters[c.waiter := Complete(waiters[c.waiter], Data(c.key))];
        return;
      }
      waiting := waiting[c.key := (if c.key in waiting then waiting[c.key] else []) + [c.waiter]];
      demands := demands[c.demand := demands[c.demand].(needsData := reading.Missing?)];
      if reading.Missing? && c.key !in partial {
        partial := partial[c.key := reading.blocks];
      }
    }

    method ProcessNext(c: Command, needsData: bool, reading: Reading) returns (touched: set<Torrent>)
      requires c.ReadPiece? ==> c.waiter < |waiters|
      modifies this`demands, this`cancelled, this`waiting, this`partial, this`waiters
      ensures View() == ProcessCommand(old(View()), c, needsData, reading) && touched == Touched(old(View()), c)
    {
      touched := {};
      match c
      case BeginDemand(d, r) =>
        if r.torrent !in revoked && r.stream in routes && routes[r.stream] == r.torrent {
          demands := demands[d := Demand(r, needsData)];
          touched := {r.torrent};
        } else {
          cancelled := cancelled + {d};
        }
      case EndDemand(d) =>
        if d in demands {
          touched := {demands[d].route.torrent};
          demands := demands - {d};
        } else {
          assert old(View()).demands - {d} == demands;
        }
      case ReadPiece(d, _, _) =>
        if d in demands && d !in cancelled {
          touched := {demands[d].route.torrent};
        }
        ProcessPieceRequest(c, reading);
    }

    method Drain(batch: seq<Command>, inputs: seq<(bool, Reading)>) returns (changed: set<Torrent>)
      requires |inputs| == |batch|
      requires forall i :: 0 <= i < |batch| && batch[i].ReadPiece? ==> batch[i].waiter < |waiters|
      modifies this`demands, this`cancelled, this`waiting, this`partial, this`waiters
      ensures View() == ProcessAll(old(View()), batch, inputs)
      ensures changed == ChangedBy(old(View()), batch, inputs)
    {
      ghost var t := View();
      changed := {};
      assert batch[0..] == batch && inputs[0..] == inputs;
      for i := 0 to |batch|
        invariant DrainedTo(t, batch, inputs, i, View(), changed)
      {
        DrainStep(t, batch, inputs, i, View(), changed);
        var touched := ProcessNext(batch[i], inputs[i].0, inputs[i].1);
        changed := changed + touched;
      }
    }

    /** The batch of commands, in order, then the abandoned waiters. */
    method DrainAndPrune(batch: seq<Command>, inputs: seq<(bool, Reading)>) returns (changed: set<Torrent>)
      requires |inputs| == |batch|
      requires forall i :: 0 <= i < |batch| && batch[i].ReadPiece? ==> batch[i].waiter < |waiters|
      requires Keyed(ProcessAll(View(), batch, inputs))
      modifies this`demands, this`cancelled, this`waiting, this`partial, this`waiters
      ensures View() == Prune(ProcessAll(old(View()), batch, inputs))
      ensures changed == ChangedBy(old(View()), batch, inputs)
    {
      changed := Drain(batch, inputs);
      PruneCancelledWaiters();
    }

    /** A new plan for every torrent a command has touched, in whatever order the set is walked. */
    method RecomputeAll(changed: set<Torrent>, plans: nat -> bool, ghost g: State)
      returns (ghost g': State, ghost order: seq<Torrent>)
      requires g.tables == View() && g.phase == Settling && g.changed == changed
      modifies this`anchors
      ensures g' == Run(g, Recomputations(order, plans)) && Lists(order, changed)
      ensures g' == g.(tables := View(), changed := {})
    {
      g', order := g, [];
      var todo := changed;
      ListsNothing(changed);
      while todo != {}
        invariant todo <= changed && g' == Run(g, Recomputations(order, plans)) && Lists(order, changed - todo)
        invariant g' == g.(tables := View(), changed := todo)
        decreases |todo|
      {
        var id :| id in todo;
        Recompute(id, plans(id));
        RecomputationNext(g, g', order, plans, id);
        ListsNext(order, changed, todo, id);
        g', order, todo := g'.(tables := View(), changed := todo - {id}), order + [id], todo - {id};
      }
      assert changed - {} == changed;
    }

    method HasDemand(stream: Stream) returns (busy: bool)
      ensures busy <==> DemandsOf(View(), {stream}) != {}
    {
      busy := false;
      var ids := demands.Keys;
      while ids != {} && !busy
        invariant ids <= demands.Keys
        invariant busy ==> exists d :: d in demands && demands[d].route.stream == stream
        invariant !busy ==> forall d :: d in demands && d !in ids ==> demands[d].route.stream != stream
        decreases |ids|
      {
        var d :| d in ids;
        busy := demands[d].route.stream == stream;
        ids := ids - {d};
      }
      if busy {
        var d :| d in demands && demands[d].route.stream == stream;
        assert d in DemandsOf(View(), {stream});
      }
    }

    /** An unused stream without demands expires. */
    method ExpireOne(stream: Stream, planned: bool)
      modifies this`routes, this`anchors
      ensures View() == Operate(old(View()), ExpireStream(stream, planned))
    {
      if stream !in routes {
        return;
      }
      var id := routes[stream];
      var busy := HasDemand(stream);
      if !busy {
        anchors := map i | i in anchors && anchors[i].route.stream != stream :: anchors[i];
        routes := routes - {stream};
      }
      Recompute(id, planned);
    }

    method ExpireAll(inactive: set<Stream>, plans: nat -> bool, ghost g: State)
      returns (ghost g': State, ghost order: seq<Stream>)
      requires g.tables == View() && g.phase == Settling && g.changed == {}
      modifies this`routes, this`anchors
      ensures g' == Run(g, Expirations(order, plans)) && Lists(order, inactive)
      ensures g' == g.(tables := View())
    {
      g', order := g, [];
      var todo := inactive;
      ListsNothing(inactive);
      while todo != {}
        invariant todo <= inactive && g' == Run(g, Expirations(order, plans)) && Lists(order, inactive - todo)
        invariant g' == g.(tables := View())
        decreases |todo|
      {
        var stream :| stream in todo;
        ExpireOne(stream, plans(stream));
        ExpirationNext(g, g', order, plans, stream);
        ListsNext(order, inactive, todo, stream);
        g', order, todo := g'.(tables := View()), order + [stream], todo - {stream};
      }
      assert inactive - {} == inactive;
    }

    /**
     One whole poll: the commands in order, the abandoned waiters, new plans for the torrents touched,
     and the expiry of inactive streams.  It is a run of the protocol from one idle state to the next.
     */
    method Poll(batch: seq<Command>, inputs: seq<(bool, Reading)>, plans: nat -> bool, inactive: set<Stream>, expiryPlans: nat -> bool,
                ghost s: State)
      returns (ghost recomputed: seq<Torrent>, ghost expired: seq<Stream>)
      requires Sound(s) && s.phase == Idle && s.tables == View() && s.commands == batch && |inputs| == |batch|
      modifies this
      ensures Lists(recomputed, ChangedBy(old(View()), batch, inputs)) && Lists(expired, inactive)
      ensures var s' := Run(s, PollSteps(inputs, recomputed, plans, expired, expiryPlans));
        s'.phase == Idle && s'.tables == View() && s'.commands == []
      ensures forall id :: s.changed == {} && Anchored(s.tables, id) && plans(id) ==> Anchored(View(), id)
    {
      ghost var g := PollBegins(s, inputs);
      var changed := DrainAndPrune(batch, inputs);
      ghost var g', g'';
      g', recomputed := RecomputeAll(changed, plans, g);
      g'', expired := ExpireAll(inactive, expiryPlans, g');
      PollEnds(s, inputs, recomputed, plans, expired, expiryPlans, g, g', g'');
      forall id | s.changed == {} && Anchored(s.tables, id) && plans(id) ensures Anchored(View(), id) {
        PollAnchors(s, inputs, recomputed, plans, expired, expiryPlans, id);
      }
    }
  }

  lemma LineIsChosen(t: Tables, dropped: set<nat>, done: set<Key>, key: Key, demand: nat)
    requires Keyed(t) && key in t.waiting && dropped == WaitersOf(t, {demand})
    ensures Chosen(ReleasedAt(t, dropped, done).waiters, t.waiting[key], Some(demand)) ==
      LeavingAt(t, dropped, {key})
    ensures forall w :: w in t.waiting[key] ==> w < |ReleasedAt(t, dropped, done).waiters|
  {
    forall w | w in t.waiting[key] ensures w < |ReleasedAt(t, dropped, done).waiters| {
      assert Filed(t, key, w);
    }
  }

  lemma SameLine(t: Tables, dropped: set<nat>, done: set<Key>, key: Key, demand: nat)
    requires Keyed(t) && key in t.waiting && dropped == WaitersOf(t, {demand})
    ensures Without(t.waiting[key], Chosen(ReleasedAt(t, dropped, done).waiters, t.waiting[key], Some(demand))) ==
      Without(t.waiting[key], dropped)
  {
    LineIsChosen(t, dropped, done, key, demand);
    WithoutSame(t.waiting[key], Chosen(ReleasedAt(t, dropped, done).waiters, t.waiting[key], Some(demand)), dropped);
  }

  /** What the cancellation under one piece has to do. */
  lemma ReleaseOne(t: Tables, done: set<Key>, key: Key, demand: nat)
    requires Keyed(t) && key in t.waiting && key !in done
    ensures var u, u' := ReleasedAt(t, WaitersOf(t, {demand}), done), ReleasedAt(t, WaitersOf(t, {demand}), done + {key});
      && key in u.waiting
      && var line := u.waiting[key];
      && (forall w :: w in line ==> w < |u.waiters|) && |u.waiters| == |u'.waiters|
      && u'.waiters == CompleteWhere(u.waiters, Chosen(u.waiters, line, Some(demand)), Failed)
      && var kept := Without(line, Chosen(u'.waiters, line, Some(demand)));
      && u'.waiting == (if kept == [] then u.waiting - {key} else u.waiting[key := kept])
      && u'.partial == (if kept == [] then u.partial - {key} else u.partial)
  {
    var dropped := WaitersOf(t, {demand});
    ReleaseNext(t, dropped, done, key);
    LineIsChosen(t, dropped, done, key, demand);
    ReleaseWaiters(t, dropped, done, key, LeavingAt(t, dropped, {key}));
    SameLine(t, dropped, done + {key}, key, demand);
  }

  lemma {:induction false} WithoutSame(s: seq<nat>, a: set<nat>, b: set<nat>)
    requires forall w :: w in s ==> (w in a <==> w in b)
    ensures Without(s, a) == Without(s, b)
  {
    if s != [] {
      WithoutSame(s[1..], a, b);
    }
  }

  function CancelledWaiters(t: Tables): set<nat> {
    set w | 0 <= w < |t.waiters| && t.waiters[w].cancelled
  }

  function CancelledIn(ws: seq<Waiter>, line: seq<nat>): set<nat> {
    set w | w in line && w < |ws| && ws[w].cancelled
  }

  /** Abandoned waiters are not completed. */
  lemma PrunedWaiters(t: Tables, done: set<Key>)
    ensures ReleasedAt(t, CancelledWaiters(t), done).waiters == t.waiters
    ensures Released(t, CancelledWaiters(t)) == Prune(t)
  {
  }

  lemma ReleaseTwiceLines(t: Tables, a: set<nat>, b: set<nat>)
    ensures Unregister(Unregister(t, a), b).waiting == Unregister(t, a + b).waiting
  {
    var u, v := Unregister(Unregister(t, a), b).waiting, Unregister(t, a + b).waiting;
    forall k ensures k in u <==> k in v
             ensures k in u ==> u[k] == v[k]
    {
      if k in t.waiting {
        WithoutTwice(t.waiting[k], a, b);
      }
    }
  }

  lemma ReleaseTwiceBlocks(t: Tables, a: set<nat>, b: set<nat>)
    ensures Unregister(Unregister(t, a), b).partial == Unregister(t, a + b).partial
  {
    var u, v := Unregister(Unregister(t, a), b).partial, Unregister(t, a + b).partial;
    forall k ensures k in u <==> k in v
             ensures k in u ==> u[k] == v[k]
    {
      if k in t.waiting {
        WithoutTwice(t.waiting[k], a, b);
      }
    }
  }

  lemma ReleasedRegistered(t: Tables, a: set<nat>)
    requires Keyed(t)
    ensures Registered(Released(t, a)) == Registered(t) - a && Keyed(Released(t, a))
  {
    var u := Released(t, a);
    forall k, w | k in u.waiting && w in u.waiting[k] ensures Filed(u, k, w) {
      assert w in t.waiting[k];
      assert Filed(t, k, w);
    }
  }

  lemma ReleaseTwice(t: Tables, a: set<nat>, b: set<nat>)
    requires Keyed(t)
    ensures Released(Released(t, a), b) == Released(t, a + b)
  {
    ReleaseTwiceLines(t, a, b);
    ReleaseTwiceBlocks(t, a, b);
    ReleasedRegistered(t, a);
    CompleteTwice(t.waiters, a * Registered(t), b * (Registered(t) - a), Failed);
    assert a * Registered(t) + b * (Registered(t) - a) == (a + b) * Registered(t);
    assert Unregister(Released(t, a), b).waiting == Unregister(Unregister(t, a), b).waiting;
    assert Unregister(Released(t, a), b).partial == Unregister(Unregister(t, a), b).partial;
  }

  lemma CancelIsRelease(t: Tables, ids: set<nat>)
    ensures CancelDemands(t, ids) ==
      Released(t, WaitersOf(t, ids)).(demands := t.demands - ids, cancelled := t.cancelled + ids)
  {
  }

  lemma ReleaseApart(t: Tables, dropped: set<nat>, demands: map<nat, Demand>, cancelled: set<nat>)
    ensures Released(t.(demands := demands, cancelled := cancelled), dropped) ==
      Released(t, dropped).(demands := demands, cancelled := cancelled)
  {
    assert Registered(t.(demands := demands, cancelled := cancelled)) == Registered(t);
  }

  lemma CancelledIsKeyed(t: Tables, gone: set<nat>)
    requires Keyed(t)
    ensures Keyed(CancelDemands(t, gone))
    ensures forall ids :: WaitersOf(CancelDemands(t, gone), ids) == WaitersOf(t, ids)
  {
    var r, u := Released(t, WaitersOf(t, gone)), CancelDemands(t, gone);
    ReleasedRegistered(t, WaitersOf(t, gone));
    forall k, w | k in u.waiting && w in u.waiting[k] ensures Filed(u, k, w) {
      assert Filed(r, k, w);
    }
  }

  lemma KeyedApart(t: Tables, demands: map<nat, Demand>, cancelled: set<nat>)
    requires Keyed(t)
    ensures Keyed(t.(demands := demands, cancelled := cancelled))
  {
    var u := t.(demands := demands, cancelled := cancelled);
    forall k, w | k in u.waiting && w in u.waiting[k] ensures Filed(u, k, w) {
      assert Filed(t, k, w);
    }
  }

  /** One more demand is cancelled. */
  lemma CancelNext(t: Tables, gone: set<nat>, d: nat)
    requires Keyed(t)
    ensures var u := CancelDemands(t, gone);
      var v := u.(cancelled := u.cancelled + {d});
      Keyed(v) && Released(v, WaitersOf(v, {d})).(demands := u.demands - {d}) == CancelDemands(t, gone + {d})
  {
    var u := CancelDemands(t, gone);
    var v := u.(cancelled := u.cancelled + {d});
    var r := Released(t, WaitersOf(t, gone));
    CancelledIsKeyed(t, gone);
    KeyedApart(u, u.demands, u.cancelled + {d});
    CancelIsRelease(t, gone);
    CancelIsRelease(t, gone + {d});
    assert WaitersOf(v, {d}) == WaitersOf(t, {d}) && v == r.(demands := v.demands, cancelled := v.cancelled);
    ReleaseApart(r, WaitersOf(t, {d}), v.demands, v.cancelled);
    ReleaseTwice(t, WaitersOf(t, gone), WaitersOf(t, {d}));
    assert WaitersOf(t, gone) + WaitersOf(t, {d}) == WaitersOf(t, gone + {d});
    assert u.demands - {d} == t.demands - (gone + {d});
  }

  lemma PruneOne(t: Tables, done: set<Key>, key: Key)
    requires Keyed(t) && key in t.waiting && key !in done
    ensures var u, u' := ReleasedAt(t, CancelledWaiters(t), done), ReleasedAt(t, CancelledWaiters(t), done + {key});
      && key in u.waiting
      && var line := u.waiting[key];
      && (forall w :: w in line ==> w < |u.waiters|) && u'.waiters == u.waiters
      && var kept := Without(line, CancelledIn(u.waiters, line));
      && u'.waiting == (if kept == [] then u.waiting - {key} else u.waiting[key := kept])
      && u'.partial == (if kept == [] then u.partial - {key} else u.partial)
  {
    var dropped := CancelledWaiters(t);
    ReleaseNext(t, dropped, done, key);
    PrunedWaiters(t, done);
    PrunedWaiters(t, done + {key});
    forall w | w in t.waiting[key] ensures w < |t.waiters| {
      assert Filed(t, key, w);
    }
    WithoutSame(t.waiting[key], CancelledIn(t.waiters, t.waiting[key]), dropped);
  }

  function WithoutRoute(t: Tables, stream: Stream): Tables {
    t.(routes := t.routes - {stream},
       anchors := map id | id in t.anchors && t.anchors[id].route.stream !in {stream} :: t.anchors[id])
  }

  lemma StopUnfolds(t: Tables, stream: Stream)
    requires Keyed(t)
    ensures Keyed(WithoutRoute(t, stream))
    ensures StopStreams(t, {stream}) ==
      CancelDemands(WithoutRoute(t, stream), DemandsOf(WithoutRoute(t, stream), {stream}))
  {
    var u := WithoutRoute(t, stream);
    assert DemandsOf(u, {stream}) == DemandsOf(t, {stream});
    forall k, w | k in u.waiting && w in u.waiting[k] ensures Filed(u, k, w) {
      assert Filed(t, k, w);
    }
  }

  lemma UnregisterNothing(t: Tables)
    requires Keyed(t)
    ensures Unregister(t, {}) == t
  {
    forall k | k in t.waiting ensures Without(t.waiting[k], {}) == t.waiting[k] {
      WithoutNothing(t.waiting[k]);
    }
    assert Unregister(t, {}).waiting == t.waiting;
  }

  lemma StillThere(t: Tables, stream: Stream, ids: set<nat>, gone: set<nat>, d: nat)
    requires d in ids && ids <= t.demands.Keys && gone == DemandsOf(t, {stream}) - ids
    ensures CancelDemands(t, gone).demands == t.demands - gone
    ensures d in t.demands - gone && (t.demands - gone)[d] == t.demands[d]
    ensures DemandsOf(t, {stream}) - (ids - {d}) == if t.demands[d].route.stream == stream then gone + {d} else gone
  {
  }

  lemma CancelNothing(t: Tables)
    requires Keyed(t)
    ensures CancelDemands(t, {}) == t
  {
    assert WaitersOf(t, {}) == {};
    CompleteNone(t.waiters, Failed);
    UnregisterNothing(t);
  }

  lemma {:induction false} WithoutNothing(s: seq<nat>)
    ensures Without(s, {}) == s
  {
    if s != [] {
      WithoutNothing(s[1..]);
    }
  }

  // ----- removing a torrent -----

  function DemandsOn(demands: map<nat, Demand>, id: Torrent): set<nat> {
    set d | d in demands && demands[d].route.torrent == id
  }

  /** The torrent's demands have ended, except those in `ids`. */
  ghost predicate EndedBut(before: map<nat, Demand>, told: set<nat>, id: Torrent, ids: set<nat>,
                           demands: map<nat, Demand>, cancelled: set<nat>)
  {
    var gone := DemandsOn(before, id) - ids;
    demands == before - gone && cancelled == told + gone
  }

  lemma NobodyGone(before: map<nat, Demand>, told: set<nat>, id: Torrent)
    ensures EndedBut(before, told, id, before.Keys, before, told)
  {
    assert DemandsOn(before, id) - before.Keys == {};
    assert before - {} == before;
  }

  lemma OneMoreEnded(before: map<nat, Demand>, told: set<nat>, id: Torrent, ids: set<nat>,
                     demands: map<nat, Demand>, cancelled: set<nat>, d: nat)
    requires d in ids && ids <= before.Keys && EndedBut(before, told, id, ids, demands, cancelled)
    ensures d in demands && demands[d] == before[d]
    ensures if demands[d].route.torrent == id then EndedBut(before, told, id, ids - {d}, demands - {d}, cancelled + {d})
            else EndedBut(before, told, id, ids - {d}, demands, cancelled)
  {
    var gone, next := DemandsOn(before, id) - ids, DemandsOn(before, id) - (ids - {d});
    assert next == if before[d].route.torrent == id then gone + {d} else gone;
    assert (before - gone) - {d} == before - (gone + {d});
  }

  function PiecesOn(t: Tables, id: Torrent): set<Key> {
    set k | k in t.waiting && k.torrent == id
  }

  /** The lines of the pieces in `done` are completed and gone. */
  function DismissedAt(t: Tables, done: set<Key>): Tables {
    t.(waiting := t.waiting - done, waiters := CompleteWhere(t.waiters, LeavingAt(t, Registered(t), done), Failed))
  }

  lemma DismissNothing(t: Tables)
    ensures DismissedAt(t, {}) == t
  {
    assert LeavingAt(t, Registered(t), {}) == {};
    CompleteNone(t.waiters, Failed);
  }

  lemma DismissNext(t: Tables, done: set<Key>, key: Key)
    requires Keyed(t) && key in t.waiting && key !in done
    ensures var u, u' := DismissedAt(t, done), DismissedAt(t, done + {key});
      && key in u.waiting && (forall w :: w in u.waiting[key] ==> w < |u.waiters|)
      && u'.waiting == u.waiting - {key}
      && u'.waiters == CompleteWhere(u.waiters, Chosen(u.waiters, u.waiting[key], None), Failed)
  {
    var u := DismissedAt(t, done);
    forall w | w in t.waiting[key] ensures w < |t.waiters| && t.waiters[w].key == key {
      assert Filed(t, key, w);
    }
    assert Chosen(u.waiters, u.waiting[key], None) == LeavingAt(t, Registered(t), {key});
    assert LeavingAt(t, Registered(t), done + {key}) ==
      LeavingAt(t, Registered(t), done) + LeavingAt(t, Registered(t), {key});
    CompleteTwice(t.waiters, LeavingAt(t, Registered(t), done), LeavingAt(t, Registered(t), {key}), Failed);
  }

  lemma SameLines(t: Tables, u: Tables)
    requires Keyed(t) && u.waiting == t.waiting && u.waiters == t.waiters
    ensures Keyed(u)
    ensures forall done :: DismissedAt(u, done).waiters == DismissedAt(t, done).waiters
  {
    forall k, w | k in u.waiting && w in u.waiting[k] ensures Filed(u, k, w) {
      assert Filed(t, k, w);
    }
    assert Registered(u) == Registered(t);
    forall done ensures DismissedAt(u, done).waiters == DismissedAt(t, done).waiters {
      assert LeavingAt(u, Registered(u), done) == LeavingAt(t, Registered(t), done);
    }
  }

  lemma ClearedByParts(t: Tables, id: Torrent)
    ensures var u := Cleared(t, id);
      && u.demands == t.demands - DemandsOn(t.demands, id) && u.cancelled == t.cancelled + DemandsOn(t.demands, id)
      && u.waiting == DismissedAt(t, PiecesOn(t, id)).waiting && u.waiters == DismissedAt(t, PiecesOn(t, id)).waiters
  {
    assert LeavingAt(t, Registered(t), PiecesOn(t, id)) == WaitersOn(t, id);
  }

  // ----- the newest demand and whole batches -----

  predicate Lacking(t: Tables, id: Torrent, d: nat) {
    d in t.demands && t.demands[d].route.torrent == id && t.demands[d].needsData
  }

  lemma FocusFound(t: Tables, id: Torrent, focus: Option<nat>)
    requires focus.None? ==> forall d :: d in t.demands ==> !Lacking(t, id, d)
    requires focus.Some? ==> Lacking(t, id, focus.value) && forall d :: d in t.demands && Lacking(t, id, d) ==> d <= focus.value
    ensures focus.Some? <==> exists d: nat :: IsFocus(t, id, d)
    ensures forall d: nat :: IsFocus(t, id, d) ==> focus == Some(d)
  {
    if focus.Some? {
      assert IsFocus(t, id, focus.value);
    }
    forall d: nat | IsFocus(t, id, d) ensures focus == Some(d) {
      assert Lacking(t, id, d);
    }
  }

  function ProcessAll(t: Tables, batch: seq<Command>, inputs: seq<(bool, Reading)>): Tables
    requires |inputs| == |batch|
    decreases |batch|
  {
    if batch == [] then t
    else ProcessAll(ProcessCommand(t, batch[0], inputs[0].0, inputs[0].1), batch[1..], inputs[1..])
  }

  function ChangedBy(t: Tables, batch: seq<Command>, inputs: seq<(bool, Reading)>): set<Torrent>
    requires |inputs| == |batch|
    decreases |batch|
  {
    if batch == [] then {}
    else Touched(t, batch[0]) + ChangedBy(ProcessCommand(t, batch[0], inputs[0].0, inputs[0].1), batch[1..], inputs[1..])
  }

  /** After the first `i` commands the tables are `now`, and what is left leads to the same end. */
  ghost predicate DrainedTo(t: Tables, batch: seq<Command>, inputs: seq<(bool, Reading)>, i: nat, now: Tables, changed: set<Torrent>)
    requires |inputs| == |batch|
  {
    && i <= |batch| && |now.waiters| == |t.waiters|
    && ProcessAll(now, batch[i..], inputs[i..]) == ProcessAll(t, batch, inputs)
    && changed + ChangedBy(now, batch[i..], inputs[i..]) == ChangedBy(t, batch, inputs)
  }

  lemma DrainStep(t: Tables, batch: seq<Command>, inputs: seq<(bool, Reading)>, i: nat, now: Tables, changed: set<Torrent>)
    requires |inputs| == |batch| && i < |batch| && DrainedTo(t, batch, inputs, i, now, changed)
    ensures DrainedTo(t, batch, inputs, i + 1, ProcessCommand(now, batch[i], inputs[i].0, inputs[i].1),
                      changed + Touched(now, batch[i]))
  {
    assert batch[i..][1..] == batch[i + 1..] && inputs[i..][1..] == inputs[i + 1..];
    SameCount(now, batch[i], inputs[i].0, inputs[i].1);
  }

  lemma SameCount(t: Tables, c: Command, needsData: bool, reading: Reading)
    ensures |ProcessCommand(t, c, needsData, reading).waiters| == |t.waiters|
  {
  }

  function Processes(inputs: seq<(bool, Reading)>): seq<Step>
    decreases |inputs|
  {
    if inputs == [] then [] else [Process(inputs[0].0, inputs[0].1)] + Processes(inputs[1..])
  }

  /** Draining a batch in one go is the run of its single steps, and leaves every waiter filed. */
  lemma {:induction false} DrainIsRun(s: State, inputs: seq<(bool, Reading)>)
    requires Sound(s) && s.phase == Draining && |inputs| == |s.batch|
    ensures Drained(s, Run(s, Processes(inputs)), inputs)
    decreases |inputs|
  {
    if inputs == [] {
      SoundIsKeyed(s);
    } else {
      var first := Process(inputs[0].0, inputs[0].1);
      StepKeepsSound(s, first);
      FirstProcess(s, inputs[0].0, inputs[0].1);
      DrainIsRun(Next(s, first), inputs[1..]);
      assert Processes(inputs) == [first] + Processes(inputs[1..]);
      RunConcat(s, [first], Processes(inputs[1..]));
      RunOne(s, first);
      DrainedFirst(s, Next(s, first), Run(s, Processes(inputs)), inputs);
    }
  }

  /** The batch of `s` is drained in `s'`, with the result of processing it at once. */
  ghost predicate Drained(s: State, s': State, inputs: seq<(bool, Reading)>) {
    && |inputs| == |s.batch| && Sound(s') && s'.batch == [] && s'.phase == Draining && s'.commands == s.commands
    && s'.tables == ProcessAll(s.tables, s.batch, inputs) && Keyed(s'.tables)
    && s'.changed == s.changed + ChangedBy(s.tables, s.batch, inputs)
  }

  lemma DrainedFirst(s: State, n: State, s': State, inputs: seq<(bool, Reading)>)
    requires inputs != [] && |inputs| == |s.batch| && Drained(n, s', inputs[1..])
    requires n.batch == s.batch[1..] && n.commands == s.commands
    requires n.tables == ProcessCommand(s.tables, s.batch[0], inputs[0].0, inputs[0].1)
    requires n.changed == s.changed + Touched(s.tables, s.batch[0])
    ensures Drained(s, s', inputs)
  {
  }

  lemma FirstProcess(s: State, needsData: bool, reading: Reading)
    requires s.phase == Draining && s.batch != []
    ensures var s' := Next(s, Process(needsData, reading));
      && s'.phase == Draining && s'.batch == s.batch[1..] && s'.commands == s.commands
      && s'.tables == ProcessCommand(s.tables, s.batch[0], needsData, reading)
      && s'.changed == s.changed + Touched(s.tables, s.batch[0])
  {
  }

  lemma SoundIsKeyed(s: State)
    requires Sound(s)
    ensures Keyed(s.tables)
  {
    forall k, w | k in s.tables.waiting && w in s.tables.waiting[k] ensures Filed(s.tables, k, w) {
      assert Entry(s.tables, k, w, s.phase != Draining);
    }
  }

  // ----- a whole poll as a run -----

  /** The sequence names each member of the set once. */
  ghost predicate Lists(order: seq<nat>, all: set<nat>) {
    NoDuplicates(order) && forall x :: x in order <==> x in all
  }

  lemma ListsNothing(all: set<nat>)
    ensures Lists([], all - all)
  {
  }

  lemma ListsNext(order: seq<nat>, all: set<nat>, todo: set<nat>, x: nat)
    requires Lists(order, all - todo) && x in todo && todo <= all
    ensures Lists(order + [x], all - (todo - {x}))
  {
  }

  function Recomputations(order: seq<Torrent>, plans: nat -> bool): seq<Step> {
    seq(|order|, i requires 0 <= i < |order| => RecomputeChanged(order[i], plans(order[i])))
  }

  function Expirations(order: seq<Stream>, plans: nat -> bool): seq<Step> {
    seq(|order|, i requires 0 <= i < |order| => ExpireStream(order[i], plans(order[i])))
  }

  function PollSteps(inputs: seq<(bool, Reading)>, recomputed: seq<Torrent>, plans: nat -> bool,
                     expired: seq<Stream>, expiryPlans: nat -> bool): seq<Step>
  {
    [StartPoll] + (Processes(inputs) + ([PruneWaiters] + (Recomputations(recomputed, plans) + (Expirations(expired, expiryPlans) + [FinishPoll]))))
  }

  lemma {:induction false} RunConcat(s: State, a: seq<Step>, b: seq<Step>)
    ensures Run(s, a + b) == Run(Run(s, a), b)
    decreases |a|
  {
    if a == [] {
      assert a + b == b;
    } else {
      assert (a + b)[0] == a[0] && (a + b)[1..] == a[1..] + b;
      RunConcat(Next(s, a[0]), a[1..], b);
    }
  }

  lemma RunOne(s: State, step: Step)
    ensures Run(s, [step]) == Next(s, step)
  {
    assert Run(Next(s, step), []) == Next(s, step);
    assert [step][1..] == [];
  }

  lemma RecomputationNext(g: State, g': State, order: seq<Torrent>, plans: nat -> bool, id: Torrent)
    requires g' == Run(g, Recomputations(order, plans)) && g'.phase == Settling && id in g'.changed
    ensures Run(g, Recomputations(order + [id], plans)) ==
      g'.(tables := StreamBridge.Recompute(g'.tables, id, plans(id)), changed := g'.changed - {id})
  {
    var step := RecomputeChanged(id, plans(id));
    assert Recomputations(order + [id], plans) == Recomputations(order, plans) + [step];
    RunConcat(g, Recomputations(order, plans), [step]);
    RunOne(g', step);
  }

  lemma ExpirationNext(g: State, g': State, order: seq<Stream>, plans: nat -> bool, stream: Stream)
    requires g' == Run(g, Expirations(order, plans)) && g'.phase == Settling && g'.changed == {}
    ensures Run(g, Expirations(order + [stream], plans)) ==
      g'.(tables := Operate(g'.tables, ExpireStream(stream, plans(stream))))
  {
    var step := ExpireStream(stream, plans(stream));
    assert Expirations(order + [stream], plans) == Expirations(order, plans) + [step];
    RunConcat(g, Expirations(order, plans), [step]);
    RunOne(g', step);
  }

  /** The state of the protocol when the batch is drained and pruned. */
  lemma PollBegins(s: State, inputs: seq<(bool, Reading)>) returns (g: State)
    requires Sound(s) && s.phase == Idle && |inputs| == |s.commands|
    ensures g == Run(s, [StartPoll] + (Processes(inputs) + [PruneWaiters])) && g.phase == Settling && g.commands == []
    ensures g.tables == Prune(ProcessAll(s.tables, s.commands, inputs)) && g.changed == ChangedBy(s.tables, s.commands, inputs)
    ensures Keyed(ProcessAll(s.tables, s.commands, inputs))
    ensures forall i :: 0 <= i < |s.commands| && s.commands[i].ReadPiece? ==> s.commands[i].waiter < |s.tables.waiters|
  {
    var started := Next(s, StartPoll);
    StepKeepsSound(s, StartPoll);
    StartPollTakes(s);
    DrainIsRun(started, inputs);
    var drained := Run(started, Processes(inputs));
    RunConcat(s, [StartPoll], Processes(inputs) + [PruneWaiters]);
    RunOne(s, StartPoll);
    RunConcat(started, Processes(inputs), [PruneWaiters]);
    RunOne(drained, PruneWaiters);
    g := Next(drained, PruneWaiters);
    forall i | 0 <= i < |s.commands| && s.commands[i].ReadPiece? ensures s.commands[i].waiter < |s.tables.waiters| {
      assert CommandSound(s.handlers, s.tables.waiters, s.commands[i]);
    }
  }

  lemma PollEnds(s: State, inputs: seq<(bool, Reading)>, recomputed: seq<Torrent>, plans: nat -> bool,
                 expired: seq<Stream>, expiryPlans: nat -> bool, g: State, g': State, g'': State)
    requires g == Run(s, [StartPoll] + (Processes(inputs) + [PruneWaiters]))
    requires g' == Run(g, Recomputations(recomputed, plans)) && g'' == Run(g', Expirations(expired, expiryPlans))
    requires g''.phase == Settling && g''.changed == {}
    ensures Run(s, PollSteps(inputs, recomputed, plans, expired, expiryPlans)) == g''.(phase := Idle)
  {
    var first, second, third := [StartPoll] + (Processes(inputs) + [PruneWaiters]), Recomputations(recomputed, plans), Expirations(expired, expiryPlans);
    assert PollSteps(inputs, recomputed, plans, expired, expiryPlans) == first + (second + (third + [FinishPoll]));
    RunConcat(s, first, second + (third + [FinishPoll]));
    RunConcat(g, second, third + [FinishPoll]);
    RunConcat(g', third, [FinishPoll]);
    RunOne(g'', FinishPoll);
  }

  lemma {:induction false} CommandsPlanNothing(inputs: seq<(bool, Reading)>, id: Torrent)
    ensures PlansSucceed(Processes(inputs), id)
    decreases |inputs|
  {
    if inputs != [] {
      CommandsPlanNothing(inputs[1..], id);
      PlansJoin([Process(inputs[0].0, inputs[0].1)], Processes(inputs[1..]), id);
    }
  }

  lemma PlansJoin(a: seq<Step>, b: seq<Step>, id: Torrent)
    requires PlansSucceed(a, id) && PlansSucceed(b, id)
    ensures PlansSucceed(a + b, id)
  {
  }

  /** A poll in which the torrent's plan succeeds leaves the torrent anchored where it should be. */
  lemma PollAnchors(s: State, inputs: seq<(bool, Reading)>, recomputed: seq<Torrent>, plans: nat -> bool,
                    expired: seq<Stream>, expiryPlans: nat -> bool, id: Torrent)
    requires Sound(s) && s.changed == {} && Anchored(s.tables, id) && plans(id)
    ensures var s' := Run(s, PollSteps(inputs, recomputed, plans, expired, expiryPlans));
      s'.phase == Idle ==> Anchored(s'.tables, id)
  {
    var second, third := Recomputations(recomputed, plans), Expirations(expired, expiryPlans);
    CommandsPlanNothing(inputs, id);
    PlansJoin(third, [FinishPoll], id);
    PlansJoin(second, third + [FinishPoll], id);
    PlansJoin([PruneWaiters], second + (third + [FinishPoll]), id);
    PlansJoin(Processes(inputs), [PruneWaiters] + (second + (third + [FinishPoll])), id);
    PlansJoin([StartPoll], Processes(inputs) + ([PruneWaiters] + (second + (third + [FinishPoll]))), id);
    RunPlans(s, PollSteps(inputs, recomputed, plans, expired, expiryPlans), id);
  }

  // ----- registering -----

  function StreamsFor(t: Tables, id: Torrent): set<Stream> {
    set x | x in t.routes && t.routes[x] == id
  }

  lemma TablesAreKeyed(t: Tables, owners: map<Stream, Torrent>)
    requires TablesSound(t, owners, true)
    ensures Keyed(t)
  {
    forall k, w | k in t.waiting && w in t.waiting[k] ensures Filed(t, k, w) {
      assert Entry(t, k, w, true);
    }
  }

  lemma AtMostOne(t: Tables, owners: map<Stream, Torrent>, id: Torrent)
    requires RoutesSound(t, owners)
    ensures StreamsFor(t, id) == {} || exists x :: StreamsFor(t, id) == {x}
  {
    if x :| x in StreamsFor(t, id) {
      assert StreamsFor(t, id) == {x};
    }
  }

  lemma StopNothing(t: Tables)
    requires Keyed(t)
    ensures StopStreams(t, {}) == t
  {
    CancelNothing(t);
    assert DemandsOf(t, {}) == {} && t.routes - {} == t.routes;
    assert (map id | id in t.anchors && t.anchors[id].route.stream !in {} :: t.anchors[id]) == t.anchors;
  }

  /** Stopping the torrent's only stream leaves nothing to make a new plan for. */
  lemma StopOnly(t: Tables, owners: map<Stream, Torrent>, id: Torrent, x: Stream, planned: bool)
    requires RoutesSound(t, owners) && DemandsSound(t) && x in StreamsFor(t, id)
    ensures StreamsFor(t, id) == {x} && StreamBridge.StopStream(t, x, planned) == StopStreams(t, {x})
  {
    assert StreamsFor(t, id) == {x};
    var u := StopStreams(t, {x});
    forall d: nat ensures !IsFocus(u, id, d) {
      assert d in t.demands && t.demands[d].route.torrent == id ==> d in DemandsOf(t, {x});
    }
  }
}
