/** The order in which a plan gives its pieces deadlines, in terms of the readers alone. */
module PlanDeadlines {
  import opened Common
  import opened PieceScheduler
  import opened DemandPlan
  import opened DemandPlanProperties
  import opened PlanWindows

  /**
   Piece `p` is due before `q`: a piece a reader is blocked on before one that is merely critical,
   among blocked pieces the one with the newer reader, and the smaller number where that is equal.
   */
  ghost predicate Sooner(demands: seq<StreamDemand>, p: U32, q: U32) {
    if Blocked(demands, q)
    then exists o :: o in demands && Blocks(o, p) && Outranks(demands, o, p, q)
    else Blocked(demands, p) || p < q
  }

  ghost predicate Outranks(demands: seq<StreamDemand>, o: StreamDemand, p: U32, q: U32) {
    forall x :: x in demands && Blocks(x, q) ==> x.id < o.id || (x == o && p < q)
  }

  /** The list of readers whose blockers are the first sources of the deadline list. */
  ghost predicate NewestFirst(readers: seq<StreamDemand>) {
    forall i, j :: 0 <= i < j < |readers| ==> readers[j].id < readers[i].id
  }

  lemma NewestInFront(front: seq<StreamDemand>, rest: seq<StreamDemand>, bound: int)
    requires |front| <= 1 && (forall o :: o in front ==> o.id == bound)
    requires NewestFirst(rest) && forall o :: o in rest ==> o.id < bound
    ensures NewestFirst(front + rest)
    ensures forall o :: o in front + rest ==> o.id <= bound
  {
    assert forall i :: 0 <= i < |rest| ==> rest[i] in rest;
    assert |front| == 1 ==> front[0] in front;
  }

  lemma {:induction false} OtherReadersDescend(sorted: seq<StreamDemand>, bound: int)
    requires forall i, j :: 0 <= i < j < |sorted| ==> sorted[i].id < sorted[j].id
    requires forall i :: 0 <= i < |sorted| ==> sorted[i].id < bound
    ensures NewestFirst(OtherReaders(sorted))
    ensures forall o :: o in OtherReaders(sorted) ==> o.id < bound
  {
    if sorted != [] {
      var n := |sorted| - 1;
      OtherReadersDescend(sorted[..n], sorted[n].id);
      NewestInFront(if sorted[n].kind == Reader then [sorted[n]] else [], OtherReaders(sorted[..n]), sorted[n].id);
    }
  }

  lemma SortedAscends(demands: seq<StreamDemand>)
    requires DistinctIds(demands)
    ensures var sorted := SortById(demands);
      forall i, j :: 0 <= i < j < |sorted| ==> sorted[i].id < sorted[j].id
  {
    SortKeepsElements(demands);
    var sorted := SortById(demands);
    forall i, j | 0 <= i < j < |sorted| ensures sorted[i].id < sorted[j].id {
      assert !BY_ID(sorted[j], sorted[i]);
      if sorted[i].id == sorted[j].id {
        TwiceInSorted(demands, sorted, i, j);
      }
    }
  }

  /** Two places of a permutation come from two places of the original. */
  lemma TwiceInSorted(demands: seq<StreamDemand>, sorted: seq<StreamDemand>, i: nat, j: nat)
    requires multiset(demands) == multiset(sorted) && DistinctIds(demands) && i < j < |sorted|
    ensures sorted[i].id != sorted[j].id
  {
    SameMembers(sorted, demands);
    if sorted[i].id == sorted[j].id {
      assert sorted[i] in demands && sorted[j] in demands;
      var x :| 0 <= x < |demands| && demands[x] == sorted[i];
      var y :| 0 <= y < |demands| && demands[y] == sorted[j];
      assert x == y;
      CountTwice(sorted, i, j);
      CountOnce(demands, x);
    }
  }

  lemma CountTwice(s: seq<StreamDemand>, i: nat, j: nat)
    requires i < j < |s| && s[i] == s[j]
    ensures multiset(s)[s[i]] >= 2
  {
    assert s == s[..i] + [s[i]] + s[i + 1..j] + [s[j]] + s[j + 1..];
  }

  lemma CountOnce(s: seq<StreamDemand>, i: nat)
    requires DistinctIds(s) && i < |s|
    ensures multiset(s)[s[i]] == 1
  {
    assert s == s[..i] + [s[i]] + s[i + 1..];
    assert s[i] !in s[..i] && s[i] !in s[i + 1..];
    assert s[i] !in multiset(s[..i]) && s[i] !in multiset(s[i + 1..]);
  }

  /** The readers whose blockers come first, in their order; the focus leads even if it is no reader. */
  ghost function Leaders(sorted: seq<StreamDemand>): seq<StreamDemand>
    requires sorted != []
  {
    [sorted[|sorted| - 1]] + OtherReaders(sorted[..|sorted| - 1])
  }

  lemma LeadersDescend(sorted: seq<StreamDemand>)
    requires sorted != [] && forall i, j :: 0 <= i < j < |sorted| ==> sorted[i].id < sorted[j].id
    ensures NewestFirst(Leaders(sorted))
  {
    var n := |sorted| - 1;
    OtherReadersDescend(sorted[..n], sorted[n].id);
    NewestInFront([sorted[n]], OtherReaders(sorted[..n]), sorted[n].id);
  }

  lemma LeadersAreReaders(demands: seq<StreamDemand>)
    requires demands != []
    ensures SortById(demands) != []
    ensures forall o, p :: o in demands && Blocks(o, p) ==> o in Leaders(SortById(demands))
    ensures forall o :: o in Leaders(SortById(demands)) ==> o in demands
  {
    SortKeepsElements(demands);
    var sorted := SortById(demands);
    var n := |sorted| - 1;
    SameMembers(sorted, demands);
    OtherReadersAre(sorted[..n]);
    assert sorted == sorted[..n] + [sorted[n]];
  }

  lemma ReaderBlocker(o: StreamDemand, s: seq<PiecePriority>, p: U32)
    requires o.kind == Reader && Schedule(BlockingRequest(o, o.range)) == Success(s)
    ensures PiecePriority(p, Blocking) in s <==> Blocks(o, p)
  {
    ReaderUrgency(o, p, 0);
    BlockingUrgency(s, p);
  }

  lemma FocusBlocker(d: StreamDemand, w: StreamWindow, p: U32)
    requires Schedule(FocusedRequest(d, w)).Success?
    ensures PiecePriority(p, Blocking) in FocusedSchedule(d, Schedule(FocusedRequest(d, w)).value) <==> Blocks(d, p)
  {
    var r := FocusedRequest(d, w);
    var s := Schedule(r).value;
    FocusedAsks(d, w);
    ScheduleUrgency(r, p, 0);
    FocusUrgency(r, d, s, p, 0);
    BlockingUrgency(FocusedSchedule(d, s), p);
    AheadBlocks(r, d, w, p);
  }

  lemma AheadBlocks(r: ScheduleRequest, d: StreamDemand, w: StreamWindow, p: int)
    requires Asks(r, d, w) && r.pieceSize > 0
    ensures Ahead(r, d, p, 0) <==> Blocks(d, p)
  {
    if Ahead(r, d, p, 0) {
      var b, c :| InClass(r, b, c) && ClassFor(d, c).Rank() <= 0 && PieceOf(r, b) == p;
      assert c == Blocking && Holds(d, b, p);
    }
    if Blocks(d, p) {
      var b :| d.range.start <= b <= d.range.end && b < d.fileSize && Holds(d, b, p);
      assert InClass(r, b, Blocking) && PieceOf(r, b) == p && ClassFor(d, Blocking).Rank() <= 0;
    }
  }

  lemma OtherBlocker(readers: seq<StreamDemand>, i: nat, p: U32)
    requires ReaderSchedules(readers).Success? && i < |readers| && readers[i].kind == Reader
    ensures PiecePriority(p, Blocking) in ReaderSchedules(readers).value[i] <==> Blocks(readers[i], p)
  {
    ReaderSchedulesOnlyBlock(readers);
    ReaderBlocker(readers[i], ReaderSchedules(readers).value[i], p);
  }

  /** The sources before the last one are the pieces the leaders block on. */
  lemma SourceOf(d: StreamDemand, readers: seq<StreamDemand>, focused: seq<PiecePriority>,
                 others: seq<seq<PiecePriority>>, sources: seq<seq<U32>>, k: nat, p: U32)
    requires k <= |readers| == |others| && |sources| == |others| + 2
    requires sources[0] == PiecesOf(focused, Blocking)
    requires forall i :: 0 <= i < |others| ==> sources[i + 1] == PiecesOf(others[i], Blocking)
    requires PiecePriority(p, Blocking) in focused <==> Blocks(d, p)
    requires k > 0 ==> (PiecePriority(p, Blocking) in others[k - 1] <==> Blocks(readers[k - 1], p))
    ensures p in sources[k] <==> Blocks(([d] + readers)[k], p)
  {
    if k > 0 {
      assert sources[k - 1 + 1] == PiecesOf(others[k - 1], Blocking);
    }
  }

  lemma SourceOfLeader(sorted: seq<StreamDemand>, w: StreamWindow, k: nat, p: U32)
    requires sorted != [] && SortedPlan(sorted, w).Success? && k < |Leaders(sorted)|
    ensures var sources := DeadlineSources(FocusOf(sorted, w), HeadOf(sorted, w), OthersOf(sorted, w));
      |sources| == |Leaders(sorted)| + 1 && (p in sources[k] <==> Blocks(Leaders(sorted)[k], p))
  {
    var d, before := sorted[|sorted| - 1], sorted[..|sorted| - 1];
    var readers := OtherReaders(before);
    PlanShape(sorted, w);
    FocusBlocker(d, w, p);
    if k > 0 {
      OtherReadersAre(before);
      assert readers[k - 1] in readers;
      OtherBlocker(readers, k - 1, p);
    }
    SourceAt(FocusOf(sorted, w), HeadOf(sorted, w), OthersOf(sorted, w));
    SourceOf(d, readers, FocusOf(sorted, w), OthersOf(sorted, w),
             DeadlineSources(FocusOf(sorted, w), HeadOf(sorted, w), OthersOf(sorted, w)), k, p);
  }

  /** From the sources of a list to the readers. */
  lemma EarlierIsSooner(demands: seq<StreamDemand>, leaders: seq<StreamDemand>, sources: seq<seq<U32>>, p: U32, q: U32)
    requires NewestFirst(leaders) && |sources| == |leaders| + 1
    requires forall o :: o in demands && Blocks(o, q) ==> o in leaders
    requires forall o :: o in leaders ==> o in demands
    requires forall k :: 0 <= k < |leaders| ==> (p in sources[k] <==> Blocks(leaders[k], p))
    requires forall k :: 0 <= k < |leaders| ==> (q in sources[k] <==> Blocks(leaders[k], q))
    requires ListedBefore(sources, p, q) && FirstSource(sources, q) < |sources|
    ensures Sooner(demands, p, q)
  {
    var k, m := FirstSource(sources, p), FirstSource(sources, q);
    assert m < |leaders| ==> Blocks(leaders[m], q) && leaders[m] in demands;
    if Blocked(demands, q) {
      var o :| o in demands && Blocks(o, q);
      var i :| 0 <= i < |leaders| && leaders[i] == o;
      assert m < |leaders|;
      assert leaders[k] in demands && Blocks(leaders[k], p);
      forall x | x in demands && Blocks(x, q) ensures x.id < leaders[k].id || (x == leaders[k] && p < q) {
        var j :| 0 <= j < |leaders| && leaders[j] == x;
        assert j >= m;
      }
      assert Outranks(demands, leaders[k], p, q);
    } else if k < |leaders| {
      assert Blocks(leaders[k], p) && leaders[k] in demands;
    }
  }

  /** Every piece of the deadline list is due sooner than those behind it. */
  lemma DeadlinesFollowReaders(demands: seq<StreamDemand>, w: StreamWindow, i: nat, j: nat)
    requires DistinctIds(demands) && demands != [] && PlanFor(demands, w).Success?
    requires i < j < |PlanFor(demands, w).value.deadlineOrder|
    ensures Sooner(demands, PlanFor(demands, w).value.deadlineOrder[i], PlanFor(demands, w).value.deadlineOrder[j])
  {
    var order, sorted := PlanFor(demands, w).value.deadlineOrder, SortById(demands);
    DeadlineOrderTheorem(demands, w);
    SortedAscends(demands);
    LeadersDescend(sorted);
    LeadersAreReaders(demands);
    var sources := DeadlineSources(FocusOf(sorted, w), HeadOf(sorted, w), OthersOf(sorted, w));
    var p, q, leaders := order[i], order[j], Leaders(sorted);
    SourceOfLeader(sorted, w, 0, p);
    forall k | 0 <= k < |leaders|
      ensures p in sources[k] <==> Blocks(leaders[k], p)
      ensures q in sources[k] <==> Blocks(leaders[k], q)
    {
      SourceOfLeader(sorted, w, k, p);
      SourceOfLeader(sorted, w, k, q);
    }
    assert q in order && ListedBefore(sources, p, q);
    EarlierIsSooner(demands, leaders, sources, p, q);
  }
}
