/**
 Installing a torrent's schedule in its libtorrent handle.  The stream bridge only sends
 the differences from the schedule it installed before; the contracts below compare the
 result with an installation from scratch.
 */
module ScheduleInstall {
  import opened Common
  import opened PieceScheduler
  import opened DemandPlan
  import opened DemandPlanProperties

  /** Values of libtorrent's download priorities. */
  const DONT_DOWNLOAD: nat := 0
  const LOW_PRIORITY: nat := 1
  const DEFAULT_PRIORITY: nat := 4
  const TOP_PRIORITY: nat := 7

  function DownloadPriorityFor(cls: PriorityClass, cold: bool): nat {
    match cls
    case Blocking => TOP_PRIORITY
    case Critical => TOP_PRIORITY
    case Playback => DEFAULT_PRIORITY
    case MetadataTail => if cold then 6 else TOP_PRIORITY
    case Readahead => LOW_PRIORITY
  }

  function DeadlineFor(ordinal: nat): nat {
    Min(ordinal * 100, 2000)
  }

  datatype CurrentSchedule = CurrentSchedule(
    priorities: Classes, deadlineOrder: seq<U32>, focusedDemandId: U64,
    revision: nat, cold: bool, firstBlocks: map<U32, nat>)

  /** What a handle holds: a priority per piece, deadlines, and the block each piece starts at. */
  datatype Settings = Settings(priorities: seq<nat>, deadlines: map<U32, nat>, firstBlocks: map<U32, nat>)

  // ----- installing from scratch -----

  function PriorityOf(priorities: Classes, cold: bool, p: int): nat {
    if 0 <= p <= U32_MAX && p in priorities then DownloadPriorityFor(priorities[p], cold) else DONT_DOWNLOAD
  }

  function PriorityVector(n: nat, priorities: Classes, cold: bool): seq<nat> {
    seq(n, p requires 0 <= p < n => PriorityOf(priorities, cold, p))
  }

  /** Every piece of the list gets the deadline of its position. */
  function Deadlines(n: nat, order: seq<U32>): (m: map<U32, nat>)
    ensures forall p :: p in m <==> p in order && p < n
    decreases |order|
  {
    if order == [] then map[]
    else
      var last := |order| - 1;
      assert forall p :: p in order <==> p in order[..last] || p == order[last];
      var m := Deadlines(n, order[..last]);
      if order[last] < n then m[order[last] := DeadlineFor(last)] else m
  }

  function Within(n: nat, m: map<U32, nat>): map<U32, nat> {
    map p | p in m && p < n :: m[p]
  }

  /** The settings of a handle on which only this schedule was ever installed. */
  function FromScratch(n: nat, s: CurrentSchedule): Settings {
    Settings(PriorityVector(n, s.priorities, s.cold), Deadlines(n, s.deadlineOrder), Within(n, s.firstBlocks))
  }

  /** The handle agrees with the stored schedule; with none stored nothing urgent is left behind. */
  predicate Agrees(n: nat, stored: Option<CurrentSchedule>, held: Settings) {
    && |held.priorities| == n
    && match stored
       case None => held.deadlines == map[] && held.firstBlocks == map[]
       case Some(s) => held == FromScratch(n, s)
  }

  /** What the bridge keeps true of every stored schedule. */
  ghost predicate Sound(stored: Option<CurrentSchedule>) {
    stored.Some? ==>
      && NoDuplicates(stored.value.deadlineOrder)
      && (forall p :: p in stored.value.firstBlocks ==> p in stored.value.deadlineOrder && stored.value.firstBlocks[p] > 0)
  }

  /** A handle that agrees with its stored schedule has the meaning of that schedule. */
  lemma StoredLaws(n: nat, stored: Option<CurrentSchedule>, held: Settings)
    requires Agrees(n, stored, held) && Sound(stored)
    ensures stored.Some? ==> DueInOrder(n, stored.value.deadlineOrder, held.deadlines)
    ensures stored.Some? ==> Ranked(n, stored.value.priorities, stored.value.cold, held.priorities)
  {
    if stored.Some? {
      ScratchIsDueInOrder(n, stored.value.deadlineOrder);
      ScratchIsRanked(n, stored.value.priorities, stored.value.cold);
    }
  }

  lemma {:induction false} DeadlineAt(n: nat, order: seq<U32>, i: nat)
    requires NoDuplicates(order) && i < |order| && order[i] < n
    ensures order[i] in Deadlines(n, order) && Deadlines(n, order)[order[i]] == DeadlineFor(i)
    decreases |order|
  {
    if i < |order| - 1 {
      DeadlineAt(n, order[..|order| - 1], i);
    }
  }

  // ----- what the installed values mean -----

  /**
   The pieces of the list that the torrent has, and no others, are due; the first at once, each
   following place a tenth of a second later, and none later than two seconds.
   */
  ghost predicate DueInOrder(n: nat, order: seq<U32>, due: map<U32, nat>) {
    && (forall p :: p in due <==> p in order && p < n)
    && (forall i :: 0 <= i < |order| && order[i] < n ==> due[order[i]] == if i < 20 then 100 * i else 2000)
  }

  lemma ScratchIsDueInOrder(n: nat, order: seq<U32>)
    requires NoDuplicates(order)
    ensures DueInOrder(n, order, Deadlines(n, order))
  {
    forall i | 0 <= i < |order| && order[i] < n
      ensures Deadlines(n, order)[order[i]] == if i < 20 then 100 * i else 2000
    {
      DeadlineAt(n, order, i);
    }
  }

  /** Pieces are due in the order of the list, strictly for the first places, and within two seconds. */
  lemma EarlierIsDueEarlier(n: nat, order: seq<U32>, due: map<U32, nat>, i: nat, j: nat)
    requires DueInOrder(n, order, due) && i < j < |order| && order[i] < n && order[j] < n
    ensures order[i] in due && order[j] in due && (i == 0 ==> due[order[i]] == 0)
    ensures due[order[i]] <= due[order[j]] <= 2000
    ensures due[order[i]] < due[order[j]] <==> i < 20
  {
  }

  /** Every piece has the priority of its class, and only pieces of the schedule are downloaded. */
  ghost predicate Ranked(n: nat, classes: Classes, cold: bool, v: seq<nat>) {
    && |v| == n
    && (forall p: U32 :: p < n && p !in classes ==> v[p] == 0)
    && (forall p: int :: p > U32_MAX && p < n ==> v[p] == 0)
    && (forall p: U32 :: p < n && p in classes ==>
        match classes[p]
        case Blocking => v[p] == 7
        case Critical => v[p] == 7
        case Playback => v[p] == 4
        case MetadataTail => (cold ==> v[p] == 6) && (!cold ==> v[p] == 7)
        case Readahead => v[p] == 1)
  }

  lemma ScratchIsRanked(n: nat, classes: Classes, cold: bool)
    ensures Ranked(n, classes, cold, PriorityVector(n, classes, cold))
  {
  }

  /** Whatever is listed is downloaded, and what a reader waits for or soon needs comes before the rest. */
  lemma UrgentGoesFirst(n: nat, classes: Classes, cold: bool, v: seq<nat>, p: U32, q: U32)
    requires Ranked(n, classes, cold, v) && p < n && q < n && p in classes
    ensures 0 < v[p] <= 7
    ensures classes[p] == Blocking || classes[p] == Critical ==> v[q] <= v[p] == 7
    ensures q !in classes ==> v[q] < v[p]
  {
  }

  /**
   A less urgent class gets the higher priority in one case alone: the tail of the file is
   preferred to playback.
   */
  lemma PriorityFollowsClassIff(n: nat, classes: Classes, cold: bool, v: seq<nat>, p: U32, q: U32)
    requires Ranked(n, classes, cold, v) && p < n && q < n && p in classes && q in classes
    requires classes[p].Rank() <= classes[q].Rank()
    ensures v[q] <= v[p] <==> !(classes[p] == Playback && classes[q] == MetadataTail)
  {
  }

  /** That case, concretely: piece 0 is due for playback, piece 1 holds the tail. */
  lemma TailBeforePlayback()
    ensures PriorityVector(2, map[0 := Playback, 1 := MetadataTail], false) == [4, 7]
    ensures PriorityVector(2, map[0 := Playback, 1 := MetadataTail], true) == [4, 6]
  {
  }

  // ----- what is to be stored next -----

  function PieceAndBlock(d: StreamDemand): (U32, nat)
    requires d.pieceSize > 0
  {
    var absolute := (d.fileOffset + d.range.start) % (U64_MAX + 1);
    ((absolute / d.pieceSize) % (U32_MAX + 1), (absolute % d.pieceSize) / BLOCK_BYTES)
  }

  /** The block each reader needs first, a later demand overriding an earlier one. */
  function WantedFirstBlocks(demands: seq<StreamDemand>): map<U32, nat>
    requires forall d :: d in demands ==> d.pieceSize > 0
    decreases |demands|
  {
    if demands == [] then map[]
    else
      var last := |demands| - 1;
      assert demands[last] in demands;
      var (piece, block) := PieceAndBlock(demands[last]);
      WantedFirstBlocks(demands[..last])[piece := block]
  }

  function BlockOf(m: map<U32, nat>, p: U32): nat {
    if p in m then m[p] else 0
  }

  /** The wanted first blocks that differ from zero, for pieces with a deadline. */
  function AppliedFirstBlocks(order: seq<U32>, wanted: map<U32, nat>): map<U32, nat> {
    map p | p in order && BlockOf(wanted, p) > 0 :: BlockOf(wanted, p)
  }

  function ClassMap(pieces: seq<PiecePriority>): Classes
    decreases |pieces|
  {
    if pieces == [] then map[]
    else
      var last := |pieces| - 1;
      ClassMap(pieces[..last])[pieces[last].piece := pieces[last].cls]
  }

  /** Urgent classes fall back to playback. */
  function Demoted(m: Classes): Classes {
    map p | p in m :: if m[p] == Blocking || m[p] == Critical then Playback else m[p]
  }

  /** The classes to install: the plan's, or the demoted old ones while a stream is open. */
  function NextClasses(previous: Option<CurrentSchedule>, plan: Plan, hasStream: bool): Classes {
    if plan.pieces == [] && previous.Some? && hasStream then Demoted(previous.value.priorities)
    else ClassMap(plan.pieces)
  }

  function Revision(previous: Option<CurrentSchedule>, priorities: Classes, plan: Plan): nat {
    if previous.None? then 1
    else if previous.value.priorities != priorities
         || previous.value.deadlineOrder != plan.deadlineOrder
         || previous.value.focusedDemandId != plan.focusedDemandId
    then previous.value.revision + 1
    else previous.value.revision
  }

  function NextStored(previous: Option<CurrentSchedule>, plan: Plan, wanted: map<U32, nat>, hasStream: bool)
    : Option<CurrentSchedule>
  {
    var priorities := NextClasses(previous, plan, hasStream);
    if priorities == map[] then None
    else Some(CurrentSchedule(priorities, plan.deadlineOrder, plan.focusedDemandId,
                              Revision(previous, priorities, plan), plan.cold,
                              AppliedFirstBlocks(plan.deadlineOrder, wanted)))
  }

  // ----- the handle -----

  /** The part of a torrent handle the schedule is written to; calls on unknown pieces do nothing. */
  class TorrentHandle {
    var held: Settings

    constructor (priorities: seq<nat>)
      ensures held == Settings(priorities, map[], map[])
    {
      held := Settings(priorities, map[], map[]);
    }

    method PrioritizeAll(priorities: seq<nat>)
      modifies this
      ensures held == old(held).(priorities := priorities)
    {
      held := held.(priorities := priorities);
    }

    method PrioritizePieces(updates: seq<(U32, nat)>)
      modifies this
      ensures held == old(held).(priorities := Updated(old(held).priorities, updates))
    {
      var v: seq<nat> := held.priorities;
      for i := 0 to |updates|
        invariant held == old(held)
        invariant Updated(v, updates[i..]) == Updated(held.priorities, updates)
      {
        assert updates[i..][1..] == updates[i + 1..];
        if updates[i].0 < |v| {
          v := v[updates[i].0 := updates[i].1];
        }
      }
      held := held.(priorities := v);
    }

    method SetPieceDeadline(piece: U32, milliseconds: nat)
      modifies this
      ensures held == if piece < |old(held).priorities|
                      then old(held).(deadlines := old(held).deadlines[piece := milliseconds]) else old(held)
    {
      if piece < |held.priorities| {
        held := held.(deadlines := held.deadlines[piece := milliseconds]);
      }
    }

    /** Taking a deadline back also clears the piece's first block. */
    method ResetPieceDeadline(piece: U32)
      modifies this
      ensures held == old(held).(deadlines := old(held).deadlines - {piece}, firstBlocks := old(held).firstBlocks - {piece})
    {
      held := held.(deadlines := held.deadlines - {piece}, firstBlocks := held.firstBlocks - {piece});
    }

    method SetPieceFirstBlock(piece: U32, block: nat)
      modifies this
      ensures held == if piece < |old(held).priorities|
                      then old(held).(firstBlocks := WithBlock(old(held).firstBlocks, piece, block)) else old(held)
    {
      if piece < |held.priorities| {
        held := held.(firstBlocks := WithBlock(held.firstBlocks, piece, block));
      }
    }
  }

  function WithBlock(m: map<U32, nat>, piece: U32, block: nat): map<U32, nat> {
    if block == 0 then m - {piece} else m[piece := block]
  }

  function Updated(v: seq<nat>, updates: seq<(U32, nat)>): (r: seq<nat>)
    ensures |r| == |v|
    decreases |updates|
  {
    if updates == [] then v
    else
      var (piece, priority) := updates[0];
      Updated(if piece < |v| then v[piece := priority] else v, updates[1..])
  }

  /** Updates that all carry the target's values turn `v` into the target where they touch it. */
  lemma {:induction false} UpdatedTowards(v: seq<nat>, updates: seq<(U32, nat)>, target: seq<nat>)
    requires |v| == |target|
    requires forall u :: u in updates && u.0 < |v| ==> u.1 == target[u.0]
    requires forall p :: 0 <= p < |v| && v[p] != target[p] ==> exists u :: u in updates && u.0 == p
    ensures Updated(v, updates) == target
    decreases |updates|
  {
    if updates != [] {
      var u := updates[0];
      assert u in updates;
      assert updates == [u] + updates[1..];
      var v' := if u.0 < |v| then v[u.0 := u.1] else v;
      forall p | 0 <= p < |v'| && v'[p] != target[p] ensures exists x :: x in updates[1..] && x.0 == p {
        var x :| x in updates && x.0 == p;
        assert x in updates[1..];
      }
      UpdatedTowards(v', updates[1..], target);
    }
  }

  // ----- comparing two schedules -----

  function OrderOf(stored: Option<CurrentSchedule>): seq<U32> {
    if stored.None? then [] else stored.value.deadlineOrder
  }

  function FirstBlocksOf(stored: Option<CurrentSchedule>): map<U32, nat> {
    if stored.None? then map[] else stored.value.firstBlocks
  }

  /** The reader went somewhere else: there were deadlines, there are deadlines, none is kept. */
  predicate Jumped(previous: seq<U32>, next: seq<U32>) {
    previous != [] && next != [] && forall p :: p in previous ==> p !in next
  }

  function Dropped(previous: seq<U32>, next: seq<U32>): set<U32> {
    set p | p in previous && p !in next
  }

  lemma DroppedNext(pieces: seq<U32>, i: nat, keep: seq<U32>)
    requires i < |pieces|
    ensures Dropped(pieces[..i + 1], keep) ==
            Dropped(pieces[..i], keep) + if pieces[i] in keep then {} else {pieces[i]}
  {
    assert pieces[..i + 1] == pieces[..i] + [pieces[i]];
  }

  /** Reads asked for after a recomputation: kept ones, and one for every waited-for deadline piece. */
  function RequestedAfter(requested: set<U32>, previous: seq<U32>, next: seq<U32>, waiting: set<U32>): set<U32> {
    requested - Dropped(previous, next) + set p | p in next && p in waiting
  }

  predicate Changed(previous: CurrentSchedule, x: PiecePriority, cold: bool) {
    x.piece !in previous.priorities
    || DownloadPriorityFor(previous.priorities[x.piece], previous.cold) != DownloadPriorityFor(x.cls, cold)
  }

  lemma UpdatesReachTarget(previous: CurrentSchedule, combined: Classes, cold: bool, updates: seq<(U32, nat)>, n: nat)
    requires forall u :: u in updates ==> u.1 == PriorityOf(combined, cold, u.0)
    requires forall p :: p in previous.priorities && p !in combined ==> (p, DONT_DOWNLOAD) in updates
    requires forall p :: p in combined && Changed(previous, PiecePriority(p, combined[p]), cold) ==>
               (p, DownloadPriorityFor(combined[p], cold)) in updates
    ensures Updated(PriorityVector(n, previous.priorities, previous.cold), updates) == PriorityVector(n, combined, cold)
  {
    var v, target := PriorityVector(n, previous.priorities, previous.cold), PriorityVector(n, combined, cold);
    forall p | 0 <= p < n && v[p] != target[p] ensures exists u :: u in updates && u.0 == p {
      if p <= U32_MAX {
        if p in combined {
          assert Changed(previous, PiecePriority(p, combined[p]), cold);
          assert (p, DownloadPriorityFor(combined[p], cold)) in updates;
        } else {
          assert (p, DONT_DOWNLOAD) in updates;
        }
      }
    }
    UpdatedTowards(v, updates, target);
  }

  /** Between two settings only the deadlines of the first `k` pieces of `next` changed, to the right value. */
  ghost predicate SetUpTo(before: Settings, after: Settings, next: seq<U32>, k: nat)
    requires k <= |next|
  {
    var n := |before.priorities|;
    && (forall i :: 0 <= i < k && next[i] < n ==>
        next[i] in after.deadlines && after.deadlines[next[i]] == DeadlineFor(i))
    && (forall p :: p !in next[..k] || p >= n ==>
        (p in after.deadlines <==> p in before.deadlines)
        && (p in after.deadlines ==> after.deadlines[p] == before.deadlines[p]))
  }

  /** One more piece of `next` has its deadline, newly set or already right. */
  lemma SetNext(before: Settings, after: Settings, after': Settings, next: seq<U32>, k: nat)
    requires k < |next| && NoDuplicates(next) && SetUpTo(before, after, next, k)
    requires
      || (after' == after && (next[k] < |before.priorities| ==>
          next[k] in after.deadlines && after.deadlines[next[k]] == DeadlineFor(k)))
      || after'.deadlines == if next[k] < |before.priorities| then after.deadlines[next[k] := DeadlineFor(k)] else after.deadlines
    ensures SetUpTo(before, after', next, k + 1)
  {
    assert next[..k + 1] == next[..k] + [next[k]];
    forall i | 0 <= i < k ensures next[i] != next[k] {
    }
  }

  lemma DeadlinesUnique(n: nat, next: seq<U32>, m: map<U32, nat>)
    requires NoDuplicates(next)
    requires forall p :: p in m <==> p in next && p < n
    requires forall i :: 0 <= i < |next| && next[i] < n ==> m[next[i]] == DeadlineFor(i)
    ensures m == Deadlines(n, next)
  {
    forall p | p in m ensures m[p] == Deadlines(n, next)[p] {
      var i :| 0 <= i < |next| && next[i] == p;
      DeadlineAt(n, next, i);
    }
  }

  /** After a jump: all old deadlines taken back, then the new ones set. */
  lemma JumpInstalls(before: Settings, cleared: Settings, after: Settings, previous: seq<U32>, next: seq<U32>)
    requires NoDuplicates(next) && before.deadlines == Deadlines(|before.priorities|, previous)
    requires cleared.priorities == before.priorities && cleared.deadlines == before.deadlines - Dropped(previous, [])
    requires SetUpTo(cleared, after, next, |next|)
    ensures after.deadlines == Deadlines(|before.priorities|, next)
  {
    assert cleared.deadlines == map[];
    assert next[..|next|] == next;
    DeadlinesUnique(|before.priorities|, next, after.deadlines);
  }

  /** Otherwise: new deadlines set first, then those no longer wanted taken back. */
  lemma StayInstalls(before: Settings, set': Settings, after: Settings, previous: seq<U32>, next: seq<U32>)
    requires NoDuplicates(next) && before.deadlines == Deadlines(|before.priorities|, previous)
    requires SetUpTo(before, set', next, |next|) && after.deadlines == set'.deadlines - Dropped(previous, next)
    ensures after.deadlines == Deadlines(|before.priorities|, next)
  {
    assert next[..|next|] == next;
    DeadlinesUnique(|before.priorities|, next, after.deadlines);
  }

  ghost function Firsts(s: seq<U32>, i: nat): set<U32>
    requires i <= |s|
  {
    set p | p in s[..i]
  }

  lemma FirstsNext(s: seq<U32>, i: nat)
    requires NoDuplicates(s) && i < |s|
    ensures s[i] !in Firsts(s, i) && Firsts(s, i + 1) == Firsts(s, i) + {s[i]}
  {
    assert s[..i + 1] == s[..i] + [s[i]];
  }

  ghost predicate AppliedTo(done: set<U32>, wanted: map<U32, nat>, applied: map<U32, nat>) {
    && (forall p :: p in applied <==> p in done && BlockOf(wanted, p) > 0)
    && (forall p :: p in applied ==> applied[p] == BlockOf(wanted, p))
  }

  lemma AppliedNext(done: set<U32>, wanted: map<U32, nat>, applied: map<U32, nat>, piece: U32)
    requires AppliedTo(done, wanted, applied) && piece !in done
    ensures AppliedTo(done + {piece}, wanted,
              if BlockOf(wanted, piece) > 0 then applied[piece := BlockOf(wanted, piece)] else applied)
  {
  }

  /** Between two block maps only the pieces in `done` changed, to the wanted block. */
  ghost predicate BlocksSet(n: nat, next: seq<U32>, wanted: map<U32, nat>, done: set<U32>,
                            start: map<U32, nat>, now: map<U32, nat>)
  {
    && (forall p :: p in done && p < n ==> BlockOf(now, p) == BlockOf(wanted, p))
    && (forall p :: p in now ==> now[p] > 0 && p < n && p in next)
    && (forall p :: p !in done ==> BlockOf(now, p) == BlockOf(start, p))
  }

  lemma BlocksSetNext(n: nat, next: seq<U32>, wanted: map<U32, nat>, done: set<U32>,
                      start: map<U32, nat>, now: map<U32, nat>, piece: U32, now': map<U32, nat>)
    requires BlocksSet(n, next, wanted, done, start, now) && piece in next && piece !in done
    requires (piece < n && now' == WithBlock(now, piece, BlockOf(wanted, piece)))
             || (now' == now && (piece < n ==> BlockOf(start, piece) == BlockOf(wanted, piece)))
    ensures BlocksSet(n, next, wanted, done + {piece}, start, now')
  {
  }

  /** Where a piece with a deadline starts before the new first blocks are applied. */
  lemma BlockBefore(n: nat, stored: Option<CurrentSchedule>, next: seq<U32>, piece: U32)
    requires Sound(stored) && piece in next && piece < n
    ensures BlockOf(Within(n, FirstBlocksOf(stored)) - Dropped(OrderOf(stored), next), piece) ==
            if Jumped(OrderOf(stored), next) then 0 else BlockOf(FirstBlocksOf(stored), piece)
  {
  }

  lemma BlocksUnique(n: nat, next: seq<U32>, wanted: map<U32, nat>, m: map<U32, nat>)
    requires forall p :: p in next && p < n ==> BlockOf(m, p) == BlockOf(wanted, p)
    requires forall p :: p in m ==> m[p] > 0 && p in next && p < n
    ensures m == Within(n, AppliedFirstBlocks(next, wanted))
  {
    forall p ensures p in m <==> p in next && p < n && BlockOf(wanted, p) > 0 {
      assert p in m ==> BlockOf(m, p) == m[p];
    }
  }

  lemma BlocksDone(n: nat, next: seq<U32>, wanted: map<U32, nat>, start: map<U32, nat>, now: map<U32, nat>, applied: map<U32, nat>)
    requires AppliedTo(Firsts(next, |next|), wanted, applied)
    requires BlocksSet(n, next, wanted, Firsts(next, |next|), start, now)
    ensures applied == AppliedFirstBlocks(next, wanted) && now == Within(n, applied)
  {
    assert forall p :: p in Firsts(next, |next|) <==> p in next;
    BlocksUnique(n, next, wanted, now);
  }

  /** A plan never gives one piece two deadlines, and an empty plan gives none. */
  lemma PlanIsSound(demands: seq<StreamDemand>, window: StreamWindow)
    requires PlanFor(demands, window).Success?
    ensures var plan := PlanFor(demands, window).value;
      NoDuplicates(plan.deadlineOrder) && (plan.pieces == [] ==> plan.deadlineOrder == [])
  {
    if demands != [] {
      DeadlineOrderTheorem(demands, window);
      NonEmptyHasMember(PlanFor(demands, window).value.deadlineOrder);
    }
  }

  lemma ClassMapEmpty(pieces: seq<PiecePriority>)
    ensures ClassMap(pieces) == map[] ==> pieces == []
  {
    if pieces != [] {
      assert pieces[|pieces| - 1].piece in ClassMap(pieces);
    }
  }

  /** The calls that turn the priorities of the previous schedule into the new ones. */
  method PriorityUpdates(previous: CurrentSchedule, combined: Classes, cold: bool) returns (updates: seq<(U32, nat)>)
    ensures forall n: nat ::
      Updated(PriorityVector(n, previous.priorities, previous.cold), updates) == PriorityVector(n, combined, cold)
  {
    updates := DropUpdates(previous, combined, cold);
    updates := ChangeUpdates(previous, combined, cold, updates);
    forall n: nat
      ensures Updated(PriorityVector(n, previous.priorities, previous.cold), updates) == PriorityVector(n, combined, cold)
    {
      UpdatesReachTarget(previous, combined, cold, updates, n);
    }
  }

  /** Every update is the right value for its piece. */
  ghost predicate RightUpdates(updates: seq<(U32, nat)>, combined: Classes, cold: bool) {
    forall u :: u in updates ==> u.1 == PriorityOf(combined, cold, u.0)
  }

  /** Pieces that are no longer wanted. */
  method DropUpdates(previous: CurrentSchedule, combined: Classes, cold: bool) returns (updates: seq<(U32, nat)>)
    ensures RightUpdates(updates, combined, cold)
    ensures forall p :: p in previous.priorities && p !in combined ==> (p, DONT_DOWNLOAD) in updates
  {
    updates := [];
    var entries := InPieceOrder(previous.priorities);
    for i := 0 to |entries|
      invariant RightUpdates(updates, combined, cold)
      invariant forall k :: 0 <= k < i && entries[k].piece !in combined ==> (entries[k].piece, DONT_DOWNLOAD) in updates
    {
      if entries[i].piece !in combined {
        updates := updates + [(entries[i].piece, DONT_DOWNLOAD)];
      }
    }
    forall p | p in previous.priorities && p !in combined ensures (p, DONT_DOWNLOAD) in updates {
      assert PiecePriority(p, previous.priorities[p]) in entries;
    }
  }

  /** Pieces whose priority is new or different. */
  method ChangeUpdates(previous: CurrentSchedule, combined: Classes, cold: bool, dropped: seq<(U32, nat)>)
    returns (updates: seq<(U32, nat)>)
    requires RightUpdates(dropped, combined, cold)
    ensures RightUpdates(updates, combined, cold) && forall u :: u in dropped ==> u in updates
    ensures forall p :: p in combined && Changed(previous, PiecePriority(p, combined[p]), cold) ==>
      (p, DownloadPriorityFor(combined[p], cold)) in updates
  {
    updates := dropped;
    var next := InPieceOrder(combined);
    for i := 0 to |next|
      invariant RightUpdates(updates, combined, cold) && forall u :: u in dropped ==> u in updates
      invariant forall k :: 0 <= k < i && Changed(previous, next[k], cold) ==>
        (next[k].piece, DownloadPriorityFor(next[k].cls, cold)) in updates
    {
      var x := next[i];
      assert x in next;
      if Changed(previous, x, cold) {
        updates := updates + [(x.piece, DownloadPriorityFor(x.cls, cold))];
      }
    }
    forall p | p in combined && Changed(previous, PiecePriority(p, combined[p]), cold)
      ensures (p, DownloadPriorityFor(combined[p], cold)) in updates
    {
      assert PiecePriority(p, combined[p]) in next;
    }
  }

  method CollectFirstBlocks(demands: seq<StreamDemand>) returns (m: map<U32, nat>)
    requires forall d :: d in demands ==> d.pieceSize > 0
    ensures m == WantedFirstBlocks(demands)
  {
    m := map[];
    for i := 0 to |demands|
      invariant m == WantedFirstBlocks(demands[..i])
    {
      assert demands[i] in demands && demands[..i + 1][..i] == demands[..i];
      var (piece, block) := PieceAndBlock(demands[i]);
      m := m[piece := block];
    }
    assert demands[..|demands|] == demands;
  }

  method CollectClasses(pieces: seq<PiecePriority>) returns (m: Classes)
    ensures m == ClassMap(pieces)
  {
    m := map[];
    for i := 0 to |pieces|
      invariant m == ClassMap(pieces[..i])
    {
      assert pieces[..i + 1][..i] == pieces[..i];
      m := m[pieces[i].piece := pieces[i].cls];
    }
    assert pieces[..|pieces|] == pieces;
  }

  // ----- the scheduling state of one torrent -----

  class TorrentSchedule {
    const handle: TorrentHandle
    var current: Option<CurrentSchedule>
    var requestedReads: set<U32>

    ghost predicate Valid()
      reads this, handle
    {
      Agrees(|handle.held.priorities|, current, handle.held) && Sound(current)
    }

    constructor (handle: TorrentHandle)
      requires handle.held.deadlines == map[] && handle.held.firstBlocks == map[]
      ensures Valid() && this.handle == handle && current == None && requestedReads == {}
    {
      this.handle, current, requestedReads := handle, None, {};
    }

    /**
     Recomputes the schedule from the demands that wait for data.  Whatever was installed before,
     the handle ends up as if only the stored schedule had been installed on it.
     */
    method Recompute(demands: seq<StreamDemand>, window: StreamWindow, hasStream: bool, waiting: set<U32>)
      requires Valid() && forall d :: d in demands ==> d.pieceSize > 0
      modifies this, handle
      ensures Valid() && |handle.held.priorities| == old(|handle.held.priorities|)
      ensures var planned := PlanFor(demands, window);
        planned.Failure? || (demands == [] && old(current) == None) ==>
          current == old(current) && handle.held == old(handle.held) && requestedReads == old(requestedReads)
      ensures var planned := PlanFor(demands, window);
        planned.Success? && (demands != [] || old(current).Some?) ==>
          && current == NextStored(old(current), planned.value, WantedFirstBlocks(demands), hasStream)
          && (current == None ==>
              forall p :: 0 <= p < |handle.held.priorities| ==> handle.held.priorities[p] == DONT_DOWNLOAD)
          && requestedReads ==
             RequestedAfter(old(requestedReads), OrderOf(old(current)), planned.value.deadlineOrder, waiting)
      ensures current.Some? ==>
        && DueInOrder(|handle.held.priorities|, current.value.deadlineOrder, handle.held.deadlines)
        && Ranked(|handle.held.priorities|, current.value.priorities, current.value.cold, handle.held.priorities)
    {
      StoredLaws(|handle.held.priorities|, current, handle.held);
      var planned := BuildStreamDemandPlan(demands, window);
      if planned.Failure? {
        return;
      }
      var plan := planned.value;
      if demands == [] && current == None {
        return;
      }
      PlanIsSound(demands, window);
      var wanted := CollectFirstBlocks(demands);
      Install(plan, wanted, hasStream, waiting);
      StoredLaws(|handle.held.priorities|, current, handle.held);
    }

    method Install(plan: Plan, wanted: map<U32, nat>, hasStream: bool, waiting: set<U32>)
      requires Valid() && NoDuplicates(plan.deadlineOrder) && (plan.pieces == [] ==> plan.deadlineOrder == [])
      modifies this, handle
      ensures Valid() && |handle.held.priorities| == old(|handle.held.priorities|)
      ensures current == NextStored(old(current), plan, wanted, hasStream)
      ensures current == None ==>
        forall p :: 0 <= p < |handle.held.priorities| ==> handle.held.priorities[p] == DONT_DOWNLOAD
      ensures requestedReads == RequestedAfter(old(requestedReads), OrderOf(old(current)), plan.deadlineOrder, waiting)
    {
      var combined := CollectClasses(plan.pieces);
      ClassMapEmpty(plan.pieces);
      if combined == map[] && current.Some? && hasStream {
        combined := Demoted(current.value.priorities);
      }
      InstallPriorities(combined, plan.cold);
      var jumped := InstallDeadlines(plan.deadlineOrder, waiting);
      var applied := InstallFirstBlocks(plan.deadlineOrder, wanted, jumped);
      if combined == map[] {
        current := None;
      } else {
        current := Some(CurrentSchedule(combined, plan.deadlineOrder, plan.focusedDemandId,
                                        Revision(current, combined, plan), plan.cold, applied));
      }
    }

    method InstallPriorities(combined: Classes, cold: bool)
      requires current.Some? ==>
        handle.held.priorities ==
        PriorityVector(|handle.held.priorities|, current.value.priorities, current.value.cold)
      modifies handle
      ensures handle.held == old(handle.held).(priorities := PriorityVector(old(|handle.held.priorities|), combined, cold))
    {
      var n := |handle.held.priorities|;
      if current == None {
        handle.PrioritizeAll(PriorityVector(n, combined, cold));
      } else {
        var updates := PriorityUpdates(current.value, combined, cold);
        assert Updated(handle.held.priorities, updates) == PriorityVector(n, combined, cold);
        if updates != [] {
          handle.PrioritizePieces(updates);
        }
      }
    }

    /** Returns whether no old deadline survives although there were some and there are some now. */
    method InstallDeadlines(next: seq<U32>, waiting: set<U32>) returns (jumped: bool)
      requires NoDuplicates(next) && NoDuplicates(OrderOf(current))
      requires handle.held.deadlines == Deadlines(|handle.held.priorities|, OrderOf(current))
      modifies this`requestedReads, handle
      ensures jumped <==> Jumped(OrderOf(current), next)
      ensures handle.held.priorities == old(handle.held.priorities)
      ensures handle.held.deadlines == Deadlines(old(|handle.held.priorities|), next)
      ensures DueInOrder(old(|handle.held.priorities|), next, handle.held.deadlines)
      ensures handle.held.firstBlocks == old(handle.held.firstBlocks) - Dropped(OrderOf(current), next)
      ensures requestedReads == RequestedAfter(old(requestedReads), OrderOf(current), next, waiting)
    {
      var previous := OrderOf(current);
      ghost var before := handle.held;
      jumped := previous != [] && next != [] && forall p :: p in previous ==> p !in next;
      if jumped {
        ResetAll(previous, []);
        assert Dropped(previous, []) == Dropped(previous, next);
      }
      ghost var cleared := handle.held;
      SetAll(previous, next, waiting, jumped);
      if jumped {
        JumpInstalls(before, cleared, handle.held, previous, next);
      } else {
        ghost var done := handle.held;
        ResetAll(previous, next);
        StayInstalls(before, done, handle.held, previous, next);
      }
      ScratchIsDueInOrder(|before.priorities|, next);
    }

    /** Takes back the deadlines of `pieces` that are not in `keep`. */
    method ResetAll(pieces: seq<U32>, keep: seq<U32>)
      modifies this`requestedReads, handle
      ensures handle.held.priorities == old(handle.held.priorities)
      ensures handle.held.deadlines == old(handle.held.deadlines) - Dropped(pieces, keep)
      ensures handle.held.firstBlocks == old(handle.held.firstBlocks) - Dropped(pieces, keep)
      ensures requestedReads == old(requestedReads) - Dropped(pieces, keep)
    {
      for i := 0 to |pieces|
        invariant handle.held.priorities == old(handle.held.priorities)
        invariant handle.held.deadlines == old(handle.held.deadlines) - Dropped(pieces[..i], keep)
        invariant handle.held.firstBlocks == old(handle.held.firstBlocks) - Dropped(pieces[..i], keep)
        invariant requestedReads == old(requestedReads) - Dropped(pieces[..i], keep)
      {
        DroppedNext(pieces, i, keep);
        if pieces[i] !in keep {
          handle.ResetPieceDeadline(pieces[i]);
          requestedReads := requestedReads - {pieces[i]};
        }
      }
      assert pieces[..|pieces|] == pieces;
    }

    method SetOne(previous: seq<U32>, next: seq<U32>, ordinal: nat, waiting: set<U32>, jumped: bool, ghost before: Settings)
      requires NoDuplicates(next) && NoDuplicates(previous) && ordinal < |next|
      requires !jumped ==> before.deadlines == Deadlines(|before.priorities|, previous)
      requires handle.held.priorities == before.priorities && SetUpTo(before, handle.held, next, ordinal)
      modifies this`requestedReads, handle
      ensures handle.held.priorities == before.priorities && handle.held.firstBlocks == old(handle.held.firstBlocks)
      ensures SetUpTo(before, handle.held, next, ordinal + 1)
      ensures requestedReads == old(requestedReads) + if next[ordinal] in waiting then {next[ordinal]} else {}
    {
      ghost var was := handle.held;
      var piece := next[ordinal];
      var wantsRead := piece in waiting && piece !in requestedReads;
      var same := !jumped && ordinal < |previous| && previous[ordinal] == piece;
      if same && !wantsRead {
        if piece < |handle.held.priorities| {
          DeadlineAt(|before.priorities|, previous, ordinal);
          assert piece !in next[..ordinal];
        }
      } else {
        handle.SetPieceDeadline(piece, DeadlineFor(ordinal));
        if wantsRead {
          requestedReads := requestedReads + {piece};
        }
      }
      SetNext(before, was, handle.held, next, ordinal);
    }

    /** Sets the deadlines of `next`, leaving out those that are already right. */
    method SetAll(previous: seq<U32>, next: seq<U32>, waiting: set<U32>, jumped: bool)
      requires NoDuplicates(next) && NoDuplicates(previous)
      requires jumped ==> forall p :: p in previous ==> p !in next
      requires !jumped ==> handle.held.deadlines == Deadlines(|handle.held.priorities|, previous)
      modifies this`requestedReads, handle
      ensures handle.held.priorities == old(handle.held.priorities)
      ensures handle.held.firstBlocks == old(handle.held.firstBlocks)
      ensures SetUpTo(old(handle.held), handle.held, next, |next|)
      ensures requestedReads == old(requestedReads) + (set p | p in next && p in waiting)
    {
      for ordinal := 0 to |next|
        invariant handle.held.priorities == old(handle.held.priorities)
        invariant handle.held.firstBlocks == old(handle.held.firstBlocks)
        invariant SetUpTo(old(handle.held), handle.held, next, ordinal)
        invariant requestedReads == old(requestedReads) + (set p | p in next[..ordinal] && p in waiting)
      {
        SetOne(previous, next, ordinal, waiting, jumped, old(handle.held));
        assert next[..ordinal + 1] == next[..ordinal] + [next[ordinal]];
      }
      assert next[..|next|] == next;
    }

    /** Points each piece with a deadline at the block its reader needs first. */
    method InstallFirstBlocks(next: seq<U32>, wanted: map<U32, nat>, jumped: bool)
      returns (applied: map<U32, nat>)
      requires NoDuplicates(next) && Sound(current) && jumped == Jumped(OrderOf(current), next)
      requires handle.held.firstBlocks ==
               Within(|handle.held.priorities|, FirstBlocksOf(current)) - Dropped(OrderOf(current), next)
      modifies handle
      ensures applied == AppliedFirstBlocks(next, wanted)
      ensures handle.held == old(handle.held).(firstBlocks := Within(old(|handle.held.priorities|), applied))
    {
      applied := map[];
      ghost var n := |handle.held.priorities|;
      ghost var start := handle.held;
      for i := 0 to |next|
        invariant handle.held == start.(firstBlocks := handle.held.firstBlocks)
        invariant AppliedTo(Firsts(next, i), wanted, applied)
        invariant BlocksSet(n, next, wanted, Firsts(next, i), start.firstBlocks, handle.held.firstBlocks)
      {
        FirstsNext(next, i);
        AppliedNext(Firsts(next, i), wanted, applied, next[i]);
        PointAt(next, i, wanted, jumped, start);
        if BlockOf(wanted, next[i]) > 0 {
          applied := applied[next[i] := BlockOf(wanted, next[i])];
        }
      }
      BlocksDone(n, next, wanted, start.firstBlocks, handle.held.firstBlocks, applied);
    }

    method PointAt(next: seq<U32>, i: nat, wanted: map<U32, nat>, jumped: bool, ghost start: Settings)
      requires i < |next| && Sound(current) && jumped == Jumped(OrderOf(current), next) && next[i] !in Firsts(next, i)
      requires start.firstBlocks == Within(|start.priorities|, FirstBlocksOf(current)) - Dropped(OrderOf(current), next)
      requires handle.held == start.(firstBlocks := handle.held.firstBlocks)
      requires BlocksSet(|start.priorities|, next, wanted, Firsts(next, i), start.firstBlocks, handle.held.firstBlocks)
      modifies handle
      ensures handle.held == start.(firstBlocks := handle.held.firstBlocks)
      ensures BlocksSet(|start.priorities|, next, wanted, Firsts(next, i) + {next[i]}, start.firstBlocks, handle.held.firstBlocks)
    {
      var piece := next[i];
      ghost var n, before := |start.priorities|, handle.held.firstBlocks;
      if piece < |handle.held.priorities| {
        BlockBefore(n, current, next, piece);
      }
      var block := BlockOf(wanted, piece);
      var previousBlock := if jumped then 0 else BlockOf(FirstBlocksOf(current), piece);
      if block != previousBlock || (block > 0 && piece !in OrderOf(current)) {
        handle.SetPieceFirstBlock(piece, block);
      }
      BlocksSetNext(n, next, wanted, Firsts(next, i), start.firstBlocks, before, piece, handle.held.firstBlocks);
    }
  }

  // ----- whole runs -----

  datatype Recomputation = Recomputation(demands: seq<StreamDemand>, window: StreamWindow, hasStream: bool, waiting: set<U32>)

  predicate Usable(r: Recomputation) {
    forall d :: d in r.demands ==> d.pieceSize > 0
  }

  function StoredNext(stored: Option<CurrentSchedule>, r: Recomputation): Option<CurrentSchedule>
    requires Usable(r)
  {
    var planned := PlanFor(r.demands, r.window);
    if planned.Failure? || (r.demands == [] && stored == None) then stored
    else NextStored(stored, planned.value, WantedFirstBlocks(r.demands), r.hasStream)
  }

  /** The schedule stored after a run, which does not depend on any handle. */
  function StoredAfter(stored: Option<CurrentSchedule>, run: seq<Recomputation>): Option<CurrentSchedule>
    requires forall r :: r in run ==> Usable(r)
    decreases |run|
  {
    if run == [] then stored
    else
      assert run[|run| - 1] in run;
      StoredNext(StoredAfter(stored, run[..|run| - 1]), run[|run| - 1])
  }

  /**
   After any run on a new handle, through jumps, cold and warm plans, demotions and failed
   plans, the handle holds what installing the last stored schedule alone would leave.
   */
  method Replay(priorities: seq<nat>, run: seq<Recomputation>)
    returns (stored: Option<CurrentSchedule>, held: Settings)
    requires forall r :: r in run ==> Usable(r)
    ensures stored == StoredAfter(None, run)
    ensures stored.Some? ==> held == FromScratch(|priorities|, stored.value)
    ensures stored.Some? ==> DueInOrder(|priorities|, stored.value.deadlineOrder, held.deadlines)
    ensures stored.Some? ==> Ranked(|priorities|, stored.value.priorities, stored.value.cold, held.priorities)
    ensures stored.None? ==> held.deadlines == map[] && held.firstBlocks == map[]
  {
    var handle := new TorrentHandle(priorities);
    var torrent := new TorrentSchedule(handle);
    for i := 0 to |run|
      invariant torrent.handle == handle && fresh(handle) && fresh(torrent)
      invariant torrent.Valid() && |handle.held.priorities| == |priorities|
      invariant torrent.current == StoredAfter(None, run[..i])
    {
      var r := run[i];
      assert r in run && run[..i + 1][..i] == run[..i];
      torrent.Recompute(r.demands, r.window, r.hasStream, r.waiting);
    }
    assert run[..|run|] == run;
    StoredLaws(|priorities|, torrent.current, handle.held);
    return torrent.current, handle.held;
  }
}
