/**
 What the readers of a torrent get from a recomputation: the settings of the handle in terms
 of the bytes they wait for.
 */
module ReaderService {
  import opened Common
  import opened PieceScheduler
  import opened DemandPlan
  import opened DemandPlanProperties
  import opened PlanWindows
  import opened PlanDeadlines
  import opened ScheduleInstall

  // ----- the stored classes -----

  lemma {:induction false} ClassMapLists(pieces: seq<PiecePriority>, p: U32)
    ensures p in ClassMap(pieces) ==> PiecePriority(p, ClassMap(pieces)[p]) in pieces
    ensures p !in ClassMap(pieces) ==> forall cls :: PiecePriority(p, cls) !in pieces
    decreases |pieces|
  {
    if pieces != [] {
      var last := |pieces| - 1;
      ClassMapLists(pieces[..last], p);
      assert pieces == pieces[..last] + [pieces[last]];
    }
  }

  /** The stored class of a piece is the most urgent one with which it is wanted. */
  lemma StoredClasses(previous: Option<CurrentSchedule>, r: Recomputation, d: StreamDemand, p: U32, cls: PriorityClass)
    requires Usable(r) && Newest(r.demands, d) && PlanFor(r.demands, r.window).Success?
    requires PlanFor(r.demands, r.window).value.pieces != []
    ensures StoredNext(previous, r).Some?
    ensures d.pieceSize > 0
    ensures var classes := StoredNext(previous, r).value.priorities;
      p in classes && classes[p] == cls <==> WantedMost(r.demands, d, r.window, p, cls)
  {
    var plan := PlanFor(r.demands, r.window).value;
    ClassMapEmpty(plan.pieces);
    ClassMapLists(plan.pieces, p);
    PlanIsExact(r.demands, d, r.window, p, cls);
    var classes := ClassMap(plan.pieces);
    if p in classes {
      PlanIsExact(r.demands, d, r.window, p, classes[p]);
    }
  }

  /** Without demands an open stream keeps its pieces, none of them urgent and none of them due. */
  lemma IdleKeepsPieces(previous: CurrentSchedule, r: Recomputation, p: U32)
    requires r.demands == [] && r.hasStream && previous.priorities != map[]
    ensures Usable(r) && StoredNext(Some(previous), r).Some?
    ensures var next := StoredNext(Some(previous), r).value;
      && next.deadlineOrder == [] && next.firstBlocks == map[]
      && (p in next.priorities <==> p in previous.priorities)
      && (p in previous.priorities ==>
          && (previous.priorities[p].Rank() <= 2 ==> next.priorities[p] == Playback)
          && (previous.priorities[p].Rank() > 2 ==> next.priorities[p] == previous.priorities[p]))
  {
    var q :| q in previous.priorities;
    assert q in Demoted(previous.priorities);
  }

  /** Without demands and without a stream nothing stays scheduled. */
  lemma ClosedDropsPieces(previous: Option<CurrentSchedule>, r: Recomputation)
    requires r.demands == [] && !r.hasStream
    ensures Usable(r) && StoredNext(previous, r) == None
  {
  }

  // ----- what the handle does for the readers -----

  /** The settings of the handle after a recomputation with a plan. */
  ghost function Installed(n: nat, previous: Option<CurrentSchedule>, r: Recomputation): Settings
    requires Usable(r) && StoredNext(previous, r).Some?
  {
    FromScratch(n, StoredNext(previous, r).value)
  }

  lemma StoredOrder(previous: Option<CurrentSchedule>, r: Recomputation)
    requires Usable(r) && r.demands != [] && PlanFor(r.demands, r.window).Success? && StoredNext(previous, r).Some?
    ensures StoredNext(previous, r).value.deadlineOrder == PlanFor(r.demands, r.window).value.deadlineOrder
    ensures StoredNext(previous, r).value.cold == PlanFor(r.demands, r.window).value.cold
  {
  }

  /** A piece a reader is blocked on has the top priority and a deadline. */
  lemma BlockedIsServed(n: nat, previous: Option<CurrentSchedule>, r: Recomputation, d: StreamDemand, p: U32)
    requires Usable(r) && Newest(r.demands, d) && PlanFor(r.demands, r.window).Success?
    requires Blocked(r.demands, p) && p < n
    ensures StoredNext(previous, r).Some?
    ensures Installed(n, previous, r).priorities[p] == 7 && p in Installed(n, previous, r).deadlines
  {
    var plan := PlanFor(r.demands, r.window).value;
    BlockingPiecesAre(r.demands, d, r.window, p);
    PlanIsExact(r.demands, d, r.window, p, Blocking);
    StoredClasses(previous, r, d, p, Blocking);
    DeadlineOrderTheorem(r.demands, r.window);
    StoredOrder(previous, r);
    ScratchIsRanked(n, StoredNext(previous, r).value.priorities, plan.cold);
  }

  /** Nothing is downloaded unless the focus or a reader wants one of its bytes. */
  lemma OnlyWantedIsDownloaded(n: nat, previous: Option<CurrentSchedule>, r: Recomputation, d: StreamDemand, p: U32)
    requires Usable(r) && Newest(r.demands, d) && PlanFor(r.demands, r.window).Success?
    requires PlanFor(r.demands, r.window).value.pieces != [] && p < n
    ensures d.pieceSize > 0 && StoredNext(previous, r).Some?
    ensures Installed(n, previous, r).priorities[p] > 0 <==> WantedUpTo(r.demands, d, r.window, p, LAST_RANK)
  {
    StoredClasses(previous, r, d, p, Blocking);
    var next := StoredNext(previous, r).value;
    ScratchIsRanked(n, next.priorities, next.cold);
    if p in next.priorities {
      StoredClasses(previous, r, d, p, next.priorities[p]);
    }
    if WantedUpTo(r.demands, d, r.window, p, LAST_RANK) {
      var c: PriorityClass :| c.Rank() <= LAST_RANK && Wanted(r.demands, d, r.window, p, c);
      var cls := MostWanted(r.demands, d, r.window, p, c);
      StoredClasses(previous, r, d, p, cls);
    }
  }

  lemma {:induction false} MostWanted(demands: seq<StreamDemand>, d: StreamDemand, w: StreamWindow, p: int, c: PriorityClass)
    returns (cls: PriorityClass)
    requires d.pieceSize > 0 && Wanted(demands, d, w, p, c)
    ensures WantedMost(demands, d, w, p, cls)
    decreases c.Rank()
  {
    if b: PriorityClass :| Wanted(demands, d, w, p, b) && b.Rank() < c.Rank() {
      cls := MostWanted(demands, d, w, p, b);
    } else {
      cls := c;
    }
  }

  /** Among the pieces that are due, the one due earlier is the one the readers need sooner. */
  lemma DueEarlierIsSooner(n: nat, previous: Option<CurrentSchedule>, r: Recomputation, p: U32, q: U32)
    requires Usable(r) && DistinctIds(r.demands) && r.demands != [] && PlanFor(r.demands, r.window).Success?
    requires StoredNext(previous, r).Some?
    requires var due := Installed(n, previous, r).deadlines; p in due && q in due && due[p] < due[q]
    ensures Sooner(r.demands, p, q)
  {
    var order := PlanFor(r.demands, r.window).value.deadlineOrder;
    StoredOrder(previous, r);
    DeadlineOrderTheorem(r.demands, r.window);
    var i, j := ListedEarlier(n, order, p, q);
    DeadlinesFollowReaders(r.demands, r.window, i, j);
  }

  lemma ListedEarlier(n: nat, order: seq<U32>, p: U32, q: U32) returns (i: nat, j: nat)
    requires NoDuplicates(order)
    requires var due := Deadlines(n, order); p in due && q in due && due[p] < due[q]
    ensures i < j < |order| && order[i] == p && order[j] == q
  {
    ScratchIsDueInOrder(n, order);
    i :| 0 <= i < |order| && order[i] == p;
    j :| 0 <= j < |order| && order[j] == q;
  }

  // ----- where each piece starts -----

  /** While nothing wraps around, the piece is that of the first byte and the block that of its place there. */
  lemma FirstBlockMeans(d: StreamDemand)
    requires d.pieceSize > 0 && d.fileOffset + d.range.start <= U64_MAX
    requires PieceNumber(d.fileOffset, d.range.start, d.pieceSize) <= U32_MAX
    ensures var (piece, block) := PieceAndBlock(d);
      var place := d.fileOffset + d.range.start - d.pieceSize * piece;
      && piece == PieceNumber(d.fileOffset, d.range.start, d.pieceSize)
      && 0 <= place < d.pieceSize
      && block * BLOCK_BYTES <= place < (block + 1) * BLOCK_BYTES
  {
    var x := d.fileOffset + d.range.start;
    DivisionMonotone(0, x, d.pieceSize);
    PlaceInPiece(x, d.pieceSize);
    PlaceInPiece(x % d.pieceSize, BLOCK_BYTES);
  }

  lemma PlaceInPiece(x: int, size: int)
    requires size > 0
    ensures x % size == x - size * (x / size) && 0 <= x % size < size
    ensures (x / size) * size <= x < (x / size + 1) * size
  {
  }

  /** Of the demands that start in one piece the last decides. */
  lemma {:induction false} LastDemandDecides(demands: seq<StreamDemand>, i: nat)
    requires (forall d :: d in demands ==> d.pieceSize > 0) && i < |demands|
    requires forall j :: i < j < |demands| ==> PieceAndBlock(demands[j]).0 != PieceAndBlock(demands[i]).0
    ensures var (piece, block) := PieceAndBlock(demands[i]);
      piece in WantedFirstBlocks(demands) && WantedFirstBlocks(demands)[piece] == block
    decreases |demands|
  {
    var last := |demands| - 1;
    if i < last {
      assert forall j :: 0 <= j < last ==> demands[..last][j] == demands[j];
      LastDemandDecides(demands[..last], i);
    }
  }

  lemma {:induction false} OnlyStartsAreWanted(demands: seq<StreamDemand>, p: U32)
    requires forall d :: d in demands ==> d.pieceSize > 0
    ensures p in WantedFirstBlocks(demands) <==> exists d :: d in demands && PieceAndBlock(d).0 == p
    decreases |demands|
  {
    if demands != [] {
      var last := |demands| - 1;
      assert demands == demands[..last] + [demands[last]];
      OnlyStartsAreWanted(demands[..last], p);
    }
  }

  /** A piece that is due starts at the block its reader needs first. */
  lemma DueStartsAtBlock(n: nat, previous: Option<CurrentSchedule>, r: Recomputation, p: U32)
    requires Usable(r) && r.demands != [] && PlanFor(r.demands, r.window).Success? && StoredNext(previous, r).Some?
    requires p in Installed(n, previous, r).deadlines
    ensures BlockOf(Installed(n, previous, r).firstBlocks, p) == BlockOf(WantedFirstBlocks(r.demands), p)
  {
    StoredOrder(previous, r);
  }

  // ----- reads and revisions -----

  /**
   A recomputation asks the torrent for every piece a reader is blocked on and waits for, keeps the reads
   already asked for, and forgets exactly those whose deadline is taken back.
   */
  lemma BlockedIsRead(r: Recomputation, d: StreamDemand, requested: set<U32>, previous: seq<U32>, p: U32)
    requires Newest(r.demands, d) && PlanFor(r.demands, r.window).Success?
    ensures var order := PlanFor(r.demands, r.window).value.deadlineOrder;
      var after := RequestedAfter(requested, previous, order, r.waiting);
      && (Blocked(r.demands, p) && p in r.waiting ==> p in after)
      && (p in requested && (Blocked(r.demands, p) || p !in previous) ==> p in after)
      && (p in previous && p !in order ==> p !in after)
      && (p !in requested && p !in r.waiting ==> p !in after)
  {
    BlockingPiecesAre(r.demands, d, r.window, p);
    DeadlineOrderTheorem(r.demands, r.window);
  }

  /** The revision tells whether the classes, the deadlines or the focus changed. */
  lemma RevisionTellsChange(previous: Option<CurrentSchedule>, r: Recomputation)
    requires Usable(r) && StoredNext(previous, r).Some?
    ensures var next := StoredNext(previous, r).value;
      && (previous.None? ==> next.revision == 1)
      && (previous.Some? ==>
          var before := previous.value;
          && before.revision <= next.revision
          && (next.revision == before.revision <==>
              && next.priorities == before.priorities && next.deadlineOrder == before.deadlineOrder
              && next.focusedDemandId == before.focusedDemandId))
  {
  }
}
