/** What every demand plan guarantees, whatever the readers ask for. */
module DemandPlanProperties {
  import opened Common
  import opened PieceScheduler
  import Sorting
  import opened DemandPlan

  // ----- urgency: the smallest rank a piece has anywhere -----

  const NO_URGENCY: nat := 5

  function Urgency(m: Classes, p: U32): nat {
    if p in m then m[p].Rank() else NO_URGENCY
  }

  function UrgencyIn(s: seq<PiecePriority>, p: U32): nat {
    if s == [] then NO_URGENCY
    else
      var rest := UrgencyIn(s[1..], p);
      if s[0].piece == p && s[0].cls.Rank() < rest then s[0].cls.Rank() else rest
  }

  function UrgencyInAll(ss: seq<seq<PiecePriority>>, p: U32): nat {
    if ss == [] then NO_URGENCY else
      var rest := UrgencyInAll(ss[1..], p);
      if UrgencyIn(ss[0], p) < rest then UrgencyIn(ss[0], p) else rest
  }

  lemma {:induction false} MergeTakesMostUrgent(m: Classes, s: seq<PiecePriority>, p: U32)
    ensures Urgency(Merge(m, s), p) == Min(Urgency(m, p), UrgencyIn(s, p))
    decreases |s|
  {
    if s != [] {
      MergeTakesMostUrgent(MergeOne(m, s[0]), s[1..], p);
    }
  }

  lemma {:induction false} MergeAllTakesMostUrgent(m: Classes, ss: seq<seq<PiecePriority>>, p: U32)
    ensures Urgency(MergeAll(m, ss), p) == Min(Urgency(m, p), UrgencyInAll(ss, p))
    decreases |ss|
  {
    if ss != [] {
      MergeTakesMostUrgent(m, ss[0], p);
      MergeAllTakesMostUrgent(Merge(m, ss[0]), ss[1..], p);
    }
  }

  lemma {:induction false} UrgencyHasWitness(s: seq<PiecePriority>, p: U32)
    ensures forall c: PriorityClass :: PiecePriority(p, c) in s ==> UrgencyIn(s, p) <= c.Rank()
    ensures UrgencyIn(s, p) < NO_URGENCY ==>
            exists c: PriorityClass :: PiecePriority(p, c) in s && c.Rank() == UrgencyIn(s, p)
  {
    if s != [] {
      assert s == [s[0]] + s[1..];
      UrgencyHasWitness(s[1..], p);
      if UrgencyIn(s, p) < NO_URGENCY {
        if UrgencyIn(s, p) == UrgencyIn(s[1..], p) {
          var c: PriorityClass :| PiecePriority(p, c) in s[1..] && c.Rank() == UrgencyIn(s[1..], p);
          assert PiecePriority(p, c) in s;
        } else {
          assert PiecePriority(p, s[0].cls) in s;
        }
      }
    }
  }

  /** A piece is blocking in a schedule exactly when its urgency there is zero. */
  lemma BlockingUrgency(s: seq<PiecePriority>, p: U32)
    ensures UrgencyIn(s, p) == 0 <==> PiecePriority(p, Blocking) in s
  {
    UrgencyHasWitness(s, p);
  }

  lemma {:induction false} BlockingUrgencyInAll(ss: seq<seq<PiecePriority>>, p: U32)
    ensures UrgencyInAll(ss, p) == 0 <==> exists i :: 0 <= i < |ss| && PiecePriority(p, Blocking) in ss[i]
  {
    if ss != [] {
      BlockingUrgency(ss[0], p);
      BlockingUrgencyInAll(ss[1..], p);
      assert forall i :: 0 <= i < |ss[1..]| ==> ss[1..][i] == ss[i + 1];
      if i :| 0 <= i < |ss| && PiecePriority(p, Blocking) in ss[i] {
        assert i > 0 ==> ss[1..][i - 1] == ss[i];
      }
    }
  }

  // ----- what the schedules of the readers look like -----

  ghost predicate OnlyClass(s: seq<PiecePriority>, cls: PriorityClass) {
    forall x :: x in s ==> x.cls == cls
  }

  lemma BlockingRequestOnlyBlocks(d: StreamDemand, range: ByteRange)
    requires Schedule(BlockingRequest(d, range)).Success?
    ensures OnlyClass(Schedule(BlockingRequest(d, range)).value, Blocking)
  {
    var r := BlockingRequest(d, range);
    ScheduleIsExact(r);
    if r.fileSize > 0 {
      assert |Windows(r)| == 1 && Windows(r)[0].cls == Blocking;
    }
  }

  lemma {:induction false} ReaderSchedulesOnlyBlock(readers: seq<StreamDemand>)
    requires ReaderSchedules(readers).Success?
    ensures forall i :: 0 <= i < |readers| ==>
      && Schedule(BlockingRequest(readers[i], readers[i].range)) == Success(ReaderSchedules(readers).value[i])
      && OnlyClass(ReaderSchedules(readers).value[i], Blocking)
  {
    if readers != [] {
      BlockingRequestOnlyBlocks(readers[0], readers[0].range);
      ReaderSchedulesOnlyBlock(readers[1..]);
      var rest := ReaderSchedules(readers[1..]).value;
      assert ReaderSchedules(readers).value[1..] == rest;
      forall i | 0 < i < |readers|
        ensures Schedule(BlockingRequest(readers[i], readers[i].range)) == Success(ReaderSchedules(readers).value[i])
        ensures OnlyClass(ReaderSchedules(readers).value[i], Blocking)
      {
        assert readers[1..][i - 1] == readers[i] && rest[i - 1] == ReaderSchedules(readers).value[i];
      }
    }
  }

  // ----- the deadline list -----

  /** A successful plan, taken apart into the schedules it was made of. */
  ghost predicate MadeOf(plan: Plan, focused: seq<PiecePriority>, head: seq<PiecePriority>,
                         others: seq<seq<PiecePriority>>)
  {
    && plan.pieces == Flatten(Combined(focused, head, others))
    && plan.deadlineOrder == AppendNew(AppendBlockers(AppendNew([], PiecesOf(focused, Blocking)), others),
                                       CriticalPieces(focused, head, others))
    && BlockersAscend(focused) && OnlyClass(head, Playback)
    && (forall i :: 0 <= i < |others| ==> Sorted(others[i]) && OnlyClass(others[i], Blocking))
  }

  function Combined(focused: seq<PiecePriority>, head: seq<PiecePriority>, others: seq<seq<PiecePriority>>): Classes {
    MergeAll(Merge(Merge(map[], focused), head), others)
  }

  function CriticalPieces(focused: seq<PiecePriority>, head: seq<PiecePriority>, others: seq<seq<PiecePriority>>): seq<U32> {
    PiecesOf(InPieceOrder(Combined(focused, head, others)), Critical)
  }

  /** The blocking entries are in ascending order of their pieces. */
  ghost predicate BlockersAscend(s: seq<PiecePriority>) {
    forall i, j :: 0 <= i < j < |s| && s[i].cls == s[j].cls == Blocking ==> s[i].piece < s[j].piece
  }

  ghost predicate AscendingPieces(s: seq<U32>) {
    forall i, j :: 0 <= i < j < |s| ==> s[i] < s[j]
  }

  lemma {:induction false} PiecesOfAscending(s: seq<PiecePriority>, cls: PriorityClass)
    requires forall i, j :: 0 <= i < j < |s| && s[i].cls == s[j].cls == cls ==> s[i].piece < s[j].piece
    ensures AscendingPieces(PiecesOf(s, cls))
  {
    if s != [] {
      PiecesOfAscending(s[1..], cls);
      var rest := PiecesOf(s[1..], cls);
      if s[0].cls == cls {
        forall k | 0 <= k < |rest| ensures s[0].piece < rest[k] {
          assert PiecePriority(rest[k], cls) in s[1..];
          var j :| 0 <= j < |s[1..]| && s[1..][j] == PiecePriority(rest[k], cls);
          assert s[j + 1] == s[1..][j];
        }
      }
    }
  }

  /** Position of the first list that holds `p`; the number of lists when none does. */
  function FirstSource(sources: seq<seq<U32>>, p: U32): (k: nat)
    ensures k <= |sources|
    ensures k < |sources| ==> p in sources[k]
    ensures forall i :: 0 <= i < k ==> p !in sources[i]
  {
    if sources == [] then 0
    else if p in sources[0] then 0
    else 1 + FirstSource(sources[1..], p)
  }

  predicate ListedBefore(sources: seq<seq<U32>>, a: U32, b: U32) {
    FirstSource(sources, a) < FirstSource(sources, b)
    || (FirstSource(sources, a) == FirstSource(sources, b) && a < b)
  }

  /** `order` lists every source's pieces once: earlier sources first, each source ascending. */
  ghost predicate ListsInOrder(order: seq<U32>, sources: seq<seq<U32>>) {
    && NoDuplicates(order)
    && (forall p :: p in order <==> FirstSource(sources, p) < |sources|)
    && (forall i, j :: 0 <= i < j < |order| ==> ListedBefore(sources, order[i], order[j]))
  }

  lemma FirstSourceUnique(sources: seq<seq<U32>>, p: U32, k: nat)
    requires k <= |sources| && (k < |sources| ==> p in sources[k])
    requires forall i :: 0 <= i < k ==> p !in sources[i]
    ensures FirstSource(sources, p) == k
  {
  }

  lemma FirstSourceGrow(sources: seq<seq<U32>>, done: seq<U32>, x: U32, p: U32)
    ensures var before, after := sources + [done], sources + [done + [x]];
      FirstSource(after, p) ==
      if p == x && FirstSource(before, p) == |before| then |sources| else
        if FirstSource(before, p) == |before| then |before| else FirstSource(before, p)
  {
    var before, after := sources + [done], sources + [done + [x]];
    var k := FirstSource(before, p);
    assert forall i :: 0 <= i < |sources| ==> before[i] == after[i];
    assert after[|sources|] == done + [x] && before[|sources|] == done;
    assert p in done + [x] <==> p in done || p == x;
    var k' := if p == x && k == |before| then |sources| else k;
    forall i | 0 <= i < k' ensures p !in after[i] {
      assert p !in before[i];
    }
    FirstSourceUnique(after, p, k');
  }

  function AppendOne(order: seq<U32>, x: U32): seq<U32> {
    if x in order then order else order + [x]
  }

  lemma AppendOneKeepsOrder(order: seq<U32>, sources: seq<seq<U32>>, done: seq<U32>, x: U32)
    requires ListsInOrder(order, sources + [done]) && AscendingPieces(done + [x])
    ensures ListsInOrder(AppendOne(order, x), sources + [done + [x]])
  {
    var before, after := sources + [done], sources + [done + [x]];
    forall p ensures FirstSource(after, p) ==
      if p == x && FirstSource(before, p) == |before| then |sources| else FirstSource(before, p)
    {
      FirstSourceGrow(sources, done, x, p);
    }
    var order' := AppendOne(order, x);
    forall i, j | 0 <= i < j < |order'| ensures ListedBefore(after, order'[i], order'[j]) {
      if j < |order| {
        assert order[i] in order && order[j] in order;
        assert ListedBefore(before, order[i], order[j]);
      } else {
        NewestListedLast(order, sources, done, x, order[i]);
      }
    }
  }

  lemma {:induction false} AppendRest(order: seq<U32>, sources: seq<seq<U32>>, done: seq<U32>, rest: seq<U32>)
    requires ListsInOrder(order, sources + [done]) && AscendingPieces(done + rest)
    ensures ListsInOrder(AppendNew(order, rest), sources + [done + rest])
    decreases |rest|
  {
    if rest == [] {
      assert done + rest == done;
    } else {
      var x, all := rest[0], done + rest;
      assert done + [x] + rest[1..] == all;
      forall i, j | 0 <= i < j < |done + [x]| ensures (done + [x])[i] < (done + [x])[j] {
        assert all[i] == (done + [x])[i] && all[j] == (done + [x])[j];
      }
      AppendOneKeepsOrder(order, sources, done, x);
      AppendRest(AppendOne(order, x), sources, done + [x], rest[1..]);
    }
  }

  lemma NewestListedLast(order: seq<U32>, sources: seq<seq<U32>>, done: seq<U32>, x: U32, p: U32)
    requires ListsInOrder(order, sources + [done]) && AscendingPieces(done + [x])
    requires p in order && x !in order
    ensures ListedBefore(sources + [done + [x]], p, x)
  {
    var before := sources + [done];
    FirstSourceGrow(sources, done, x, p);
    FirstSourceGrow(sources, done, x, x);
    assert FirstSource(before, x) == |before|;
    if FirstSource(before, p) == |sources| {
      assert before[|sources|] == done;
      var i :| 0 <= i < |done| && done[i] == p;
      assert (done + [x])[i] == p && (done + [x])[|done|] == x;
    }
  }

  lemma AppendSource(order: seq<U32>, sources: seq<seq<U32>>, source: seq<U32>)
    requires ListsInOrder(order, sources) && AscendingPieces(source)
    ensures ListsInOrder(AppendNew(order, source), sources + [source])
  {
    forall p ensures FirstSource(sources + [[]], p) ==
      if FirstSource(sources, p) == |sources| then |sources| + 1 else FirstSource(sources, p)
    {
      var k := FirstSource(sources, p);
      FirstSourceUnique(sources + [[]], p, if k == |sources| then k + 1 else k);
    }
    forall i, j | 0 <= i < j < |order| ensures ListedBefore(sources + [[]], order[i], order[j]) {
      assert ListedBefore(sources, order[i], order[j]);
      assert order[i] in order && order[j] in order;
    }
    assert [] + source == source;
    AppendRest(order, sources, [], source);
  }

  /** The blockers of each list of schedules, one source per schedule. */
  function BlockerSources(ss: seq<seq<PiecePriority>>): (r: seq<seq<U32>>)
    ensures |r| == |ss|
    ensures forall i :: 0 <= i < |ss| ==> r[i] == PiecesOf(ss[i], Blocking)
  {
    if ss == [] then [] else [PiecesOf(ss[0], Blocking)] + BlockerSources(ss[1..])
  }

  function AppendAll(order: seq<U32>, more: seq<seq<U32>>): seq<U32>
    decreases |more|
  {
    if more == [] then order else AppendAll(AppendNew(order, more[0]), more[1..])
  }

  lemma {:induction false} AppendAllOrder(order: seq<U32>, sources: seq<seq<U32>>, more: seq<seq<U32>>)
    requires ListsInOrder(order, sources)
    requires forall i :: 0 <= i < |more| ==> AscendingPieces(more[i])
    ensures ListsInOrder(AppendAll(order, more), sources + more)
    decreases |more|
  {
    if more == [] {
      assert sources + more == sources;
    } else {
      AppendSource(order, sources, more[0]);
      assert sources + [more[0]] + more[1..] == sources + more;
      AppendAllOrder(AppendNew(order, more[0]), sources + [more[0]], more[1..]);
    }
  }

  lemma {:induction false} AppendBlockersIsAppendAll(order: seq<U32>, ss: seq<seq<PiecePriority>>)
    ensures AppendBlockers(order, ss) == AppendAll(order, BlockerSources(ss))
    decreases |ss|
  {
    if ss != [] {
      assert BlockerSources(ss)[1..] == BlockerSources(ss[1..]);
      AppendBlockersIsAppendAll(AppendNew(order, PiecesOf(ss[0], Blocking)), ss[1..]);
    }
  }

  ghost function DeadlineSources(focused: seq<PiecePriority>, head: seq<PiecePriority>,
                                 others: seq<seq<PiecePriority>>): seq<seq<U32>>
  {
    [PiecesOf(focused, Blocking)] + BlockerSources(others) + [CriticalPieces(focused, head, others)]
  }

  /** The deadline list: the focus's blockers, then each other reader's, then critical pieces. */
  lemma DeadlineShape(plan: Plan, focused: seq<PiecePriority>, head: seq<PiecePriority>,
                      others: seq<seq<PiecePriority>>)
    requires MadeOf(plan, focused, head, others)
    ensures ListsInOrder(plan.deadlineOrder, DeadlineSources(focused, head, others))
  {
    PiecesOfAscending(focused, Blocking);
    AppendSource([], [], PiecesOf(focused, Blocking));
    assert [] + [PiecesOf(focused, Blocking)] == [PiecesOf(focused, Blocking)];
    forall i | 0 <= i < |others| ensures AscendingPieces(PiecesOf(others[i], Blocking)) {
      PiecesOfAscending(others[i], Blocking);
    }
    AppendBlockersIsAppendAll(AppendNew([], PiecesOf(focused, Blocking)), others);
    AppendAllOrder(AppendNew([], PiecesOf(focused, Blocking)), [PiecesOf(focused, Blocking)], BlockerSources(others));
    var all := InPieceOrder(Combined(focused, head, others));
    PiecesOfAscending(all, Critical);
    AppendSource(AppendBlockers(AppendNew([], PiecesOf(focused, Blocking)), others),
                 [PiecesOf(focused, Blocking)] + BlockerSources(others),
                 CriticalPieces(focused, head, others));
  }

  lemma CombinedUrgency(focused: seq<PiecePriority>, head: seq<PiecePriority>,
                        others: seq<seq<PiecePriority>>, p: U32)
    ensures Urgency(Combined(focused, head, others), p) ==
            Min(Min(UrgencyIn(focused, p), UrgencyIn(head, p)), UrgencyInAll(others, p))
  {
    MergeTakesMostUrgent(map[], focused, p);
    UrgencyBounded(focused, p);
    MergeTakesMostUrgent(Merge(map[], focused), head, p);
    MergeAllTakesMostUrgent(Merge(Merge(map[], focused), head), others, p);
  }

  lemma {:induction false} UrgencyBounded(s: seq<PiecePriority>, p: U32)
    ensures UrgencyIn(s, p) <= NO_URGENCY
  {
    if s != [] {
      UrgencyBounded(s[1..], p);
    }
  }

  /** The list holds exactly the blocking and the critical pieces of the plan. */
  lemma DeadlinesExactly(plan: Plan, focused: seq<PiecePriority>, head: seq<PiecePriority>,
                         others: seq<seq<PiecePriority>>, p: U32)
    requires MadeOf(plan, focused, head, others)
    ensures p in plan.deadlineOrder <==>
            PiecePriority(p, Blocking) in plan.pieces || PiecePriority(p, Critical) in plan.pieces
  {
    DeadlineShape(plan, focused, head, others);
    BlockersOfPlan(plan, focused, head, others, p);
    SourcesOfPlan(plan, focused, head, others, p);
  }

  /** A piece blocks in the plan exactly if it blocks for the focus or for another reader. */
  lemma BlockersOfPlan(plan: Plan, focused: seq<PiecePriority>, head: seq<PiecePriority>,
                       others: seq<seq<PiecePriority>>, p: U32)
    requires MadeOf(plan, focused, head, others)
    ensures PiecePriority(p, Blocking) in plan.pieces <==>
      PiecePriority(p, Blocking) in focused || exists i :: 0 <= i < |others| && PiecePriority(p, Blocking) in others[i]
  {
    CombinedUrgency(focused, head, others, p);
    BlockingUrgency(focused, p);
    BlockingUrgency(head, p);
    BlockingUrgencyInAll(others, p);
    assert PiecePriority(p, Blocking) in plan.pieces <==> Urgency(Combined(focused, head, others), p) == 0;
  }

  /** The sources of the deadline list hold a piece exactly if it blocks somebody or is critical. */
  lemma SourcesOfPlan(plan: Plan, focused: seq<PiecePriority>, head: seq<PiecePriority>,
                      others: seq<seq<PiecePriority>>, p: U32)
    requires MadeOf(plan, focused, head, others)
    ensures var sources := DeadlineSources(focused, head, others);
      (exists k :: 0 <= k < |sources| && p in sources[k]) <==>
      || PiecePriority(p, Blocking) in focused
      || (exists i :: 0 <= i < |others| && PiecePriority(p, Blocking) in others[i])
      || PiecePriority(p, Critical) in plan.pieces
  {
    var sources := DeadlineSources(focused, head, others);
    SourceAt(focused, head, others);
    CriticalSource(plan, focused, head, others, p);
    if k :| 0 <= k < |sources| && p in sources[k] {
      InSource(focused, head, others, p, k);
    }
    if i :| 0 <= i < |others| && PiecePriority(p, Blocking) in others[i] {
      assert p in sources[i + 1];
    }
    assert PiecePriority(p, Blocking) in focused ==> p in sources[0];
    assert p in CriticalPieces(focused, head, others) ==> p in sources[|others| + 1];
  }

  lemma SourceAt(focused: seq<PiecePriority>, head: seq<PiecePriority>, others: seq<seq<PiecePriority>>)
    ensures var sources := DeadlineSources(focused, head, others);
      && |sources| == |others| + 2 && sources[0] == PiecesOf(focused, Blocking)
      && (forall i :: 0 <= i < |others| ==> sources[i + 1] == PiecesOf(others[i], Blocking))
      && sources[|others| + 1] == CriticalPieces(focused, head, others)
  {
  }

  lemma InSource(focused: seq<PiecePriority>, head: seq<PiecePriority>, others: seq<seq<PiecePriority>>, p: U32, k: nat)
    requires k < |DeadlineSources(focused, head, others)| && p in DeadlineSources(focused, head, others)[k]
    ensures || PiecePriority(p, Blocking) in focused
            || (exists i :: 0 <= i < |others| && PiecePriority(p, Blocking) in others[i])
            || p in CriticalPieces(focused, head, others)
  {
    SourceAt(focused, head, others);
    assert 0 < k <= |others| ==> PiecePriority(p, Blocking) in others[k - 1];
  }

  lemma CriticalSource(plan: Plan, focused: seq<PiecePriority>, head: seq<PiecePriority>,
                       others: seq<seq<PiecePriority>>, p: U32)
    requires MadeOf(plan, focused, head, others)
    ensures p in CriticalPieces(focused, head, others) <==> PiecePriority(p, Critical) in plan.pieces
  {
  }

  // ----- the same for the plans the program builds -----

  ghost function FocusOf(sorted: seq<StreamDemand>, w: StreamWindow): seq<PiecePriority>
    requires sorted != [] && SortedPlan(sorted, w).Success?
  {
    var d := sorted[|sorted| - 1];
    FocusedSchedule(d, Schedule(FocusedRequest(d, w)).value)
  }

  ghost function HeadOf(sorted: seq<StreamDemand>, w: StreamWindow): seq<PiecePriority>
    requires sorted != [] && SortedPlan(sorted, w).Success?
  {
    HeadSchedule(sorted[|sorted| - 1], w).value
  }

  ghost function OthersOf(sorted: seq<StreamDemand>, w: StreamWindow): seq<seq<PiecePriority>>
    requires sorted != [] && SortedPlan(sorted, w).Success?
  {
    ReaderSchedules(OtherReaders(sorted[..|sorted| - 1])).value
  }

  lemma ScheduleSorted(r: ScheduleRequest)
    requires Schedule(r).Success?
    ensures Sorted(Schedule(r).value)
  {
    ScheduleIsExact(r);
  }

  lemma PlanShape(sorted: seq<StreamDemand>, w: StreamWindow)
    requires sorted != [] && SortedPlan(sorted, w).Success?
    ensures SortedPlan(sorted, w).value ==
      Assemble(sorted[|sorted| - 1], FocusOf(sorted, w), HeadOf(sorted, w), OthersOf(sorted, w))
    ensures Schedule(FocusedRequest(sorted[|sorted| - 1], w)).Success? && HeadSchedule(sorted[|sorted| - 1], w).Success?
    ensures ReaderSchedules(OtherReaders(sorted[..|sorted| - 1])).Success?
  {
  }

  lemma OthersBlock(readers: seq<StreamDemand>)
    requires ReaderSchedules(readers).Success?
    ensures var others := ReaderSchedules(readers).value;
      forall i :: 0 <= i < |others| ==> Sorted(others[i]) && OnlyClass(others[i], Blocking)
  {
    ReaderSchedulesOnlyBlock(readers);
    var others := ReaderSchedules(readers).value;
    forall i | 0 <= i < |others| ensures Sorted(others[i]) && OnlyClass(others[i], Blocking) {
      ScheduleSorted(BlockingRequest(readers[i], readers[i].range));
    }
  }

  lemma FocusAscends(d: StreamDemand, w: StreamWindow)
    requires Schedule(FocusedRequest(d, w)).Success?
    ensures BlockersAscend(FocusedSchedule(d, Schedule(FocusedRequest(d, w)).value))
  {
    ScheduleSorted(FocusedRequest(d, w));
  }

  lemma HeadIsPlayback(d: StreamDemand, w: StreamWindow)
    requires HeadSchedule(d, w).Success?
    ensures OnlyClass(HeadSchedule(d, w).value, Playback)
  {
  }

  lemma PlanParts(sorted: seq<StreamDemand>, w: StreamWindow)
    requires sorted != [] && SortedPlan(sorted, w).Success?
    ensures MadeOf(SortedPlan(sorted, w).value, FocusOf(sorted, w), HeadOf(sorted, w), OthersOf(sorted, w))
  {
    PlanShape(sorted, w);
    FocusAscends(sorted[|sorted| - 1], w);
    HeadIsPlayback(sorted[|sorted| - 1], w);
    OthersBlock(OtherReaders(sorted[..|sorted| - 1]));
  }

  /**
   Every plan: no piece has two deadlines, the list holds exactly the blocking and critical
   pieces, and it names the focused reader's blockers, then the other readers' from the newest
   to the oldest, then the critical pieces, each group ascending.
   */
  lemma DeadlineOrderTheorem(demands: seq<StreamDemand>, w: StreamWindow)
    requires demands != [] && PlanFor(demands, w).Success?
    ensures SortById(demands) != []
    ensures var plan, sorted := PlanFor(demands, w).value, SortById(demands);
      && NoDuplicates(plan.deadlineOrder)
      && (forall p: U32 :: p in plan.deadlineOrder <==>
           PiecePriority(p, Blocking) in plan.pieces || PiecePriority(p, Critical) in plan.pieces)
      && ListsInOrder(plan.deadlineOrder,
           DeadlineSources(FocusOf(sorted, w), HeadOf(sorted, w), OthersOf(sorted, w)))
  {
    var plan, sorted := PlanFor(demands, w).value, SortById(demands);
    SortKeepsElements(demands);
    PlanParts(sorted, w);
    DeadlineShape(plan, FocusOf(sorted, w), HeadOf(sorted, w), OthersOf(sorted, w));
    forall p: U32 ensures p in plan.deadlineOrder <==>
      PiecePriority(p, Blocking) in plan.pieces || PiecePriority(p, Critical) in plan.pieces
    {
      DeadlinesExactly(plan, FocusOf(sorted, w), HeadOf(sorted, w), OthersOf(sorted, w), p);
    }
  }

  // ----- how many pieces are critical, how long the deadline list gets -----

  /** The piece a demand ends in. */
  function LastPiece(d: StreamDemand): int
    requires d.pieceSize > 0
  {
    PieceNumber(d.fileOffset, Min(d.range.end, d.fileSize - 1), d.pieceSize)
  }

  /** The demand lies in one piece, as the ranges cut by `BlockingDemandRange` do. */
  predicate OnePiece(d: StreamDemand) {
    d.pieceSize > 0 ==>
      PieceNumber(d.fileOffset, d.range.start, d.pieceSize) == PieceNumber(d.fileOffset, d.range.end, d.pieceSize)
  }

  lemma BlockingDemandIsOnePiece(response: ByteRange, position: U64, d: StreamDemand)
    requires BlockingDemandRange(response, position, d.fileOffset, d.pieceSize) == Success(d.range)
    ensures OnePiece(d)
  {
    BlockingDemandRangeIsMaximal(response, position, d.fileOffset, d.pieceSize);
  }

  lemma DivisionShift(x: int, d: int, k: nat)
    requires d > 0
    ensures (x + k * d) / d == x / d + k
  {
    DivisionBracket(x, d);
    assert d * (x / d + k) == d * (x / d) + k * d;
    DivisionUnique(x + k * d, d, x / d + k);
  }

  lemma WindowClasses(r: ScheduleRequest, c: Window)
    requires WellFormed(r) && c in Windows(r)
    ensures 0 <= c.first <= c.last < r.fileSize
    ensures c.cls == Blocking ==> c.first == r.demand.start && c.last == Min(r.demand.end, r.fileSize - 1)
    ensures c.cls == Critical ==> c.first == r.demand.end + 1 && c.last <= r.demand.end + r.criticalBytes
  {
    WindowsInsideFile(r);
  }

  lemma TouchesOf(r: ScheduleRequest, s: seq<PiecePriority>, x: PiecePriority) returns (c: Window)
    requires WellFormed(r) && IsScheduleOf(r, s) && x in s
    ensures c in Windows(r) && c.cls == x.cls
    ensures 0 <= c.first <= c.last < r.fileSize && PieceOf(r, c.first) <= x.piece <= PieceOf(r, c.last)
    ensures x.cls != Blocking ==>
      !(PieceOf(r, r.demand.start) <= x.piece <= PieceOf(r, Min(r.demand.end, r.fileSize - 1)))
  {
    var ws := Windows(r);
    assert MostUrgent(r, ws, x.piece, x.cls);
    c :| c in ws && Touches(r, c, x.piece) && c.cls == x.cls;
    WindowClasses(r, c);
    TouchesInterval(r, c, x.piece);
    var b := ws[0];
    assert b in ws && b.cls == Blocking;
    WindowClasses(r, b);
    TouchesInterval(r, b, x.piece);
  }

  /** Critical pieces lie just after the demand's last piece, within the limit. */
  lemma CriticalNearDemand(d: StreamDemand, w: StreamWindow, s: seq<PiecePriority>, x: PiecePriority)
    requires WellFormed(FocusedRequest(d, w)) && IsScheduleOf(FocusedRequest(d, w), s)
    requires x in s && x.cls == Critical
    ensures LastPiece(d) < x.piece <= LastPiece(d) + w.criticalPieceLimit
  {
    var r := FocusedRequest(d, w);
    var c := TouchesOf(r, s, x);
    WindowClasses(r, c);
    var reach := w.criticalPieceLimit * d.pieceSize;
    assert c.last <= d.range.end + reach;
    PieceNumberMonotone(d.fileOffset, d.range.start, d.range.end, d.pieceSize);
    PieceNumberMonotone(d.fileOffset, d.range.end, c.first, d.pieceSize);
    PieceNumberMonotone(d.fileOffset, c.last, d.range.end + reach, d.pieceSize);
    DivisionShift(d.fileOffset + d.range.end, d.pieceSize, w.criticalPieceLimit);
  }

  predicate SameDemand(d: StreamDemand, r: ScheduleRequest) {
    r.fileOffset == d.fileOffset && r.fileSize == d.fileSize && r.pieceSize == d.pieceSize && r.demand == d.range
  }

  lemma BlockingIsLastPiece(d: StreamDemand, r: ScheduleRequest, s: seq<PiecePriority>, x: PiecePriority)
    requires SameDemand(d, r) && OnePiece(d) && WellFormed(r) && IsScheduleOf(r, s)
    requires x in s && x.cls == Blocking
    ensures x.piece == LastPiece(d)
  {
    var c := TouchesOf(r, s, x);
    WindowClasses(r, c);
    var last := Min(d.range.end, d.fileSize - 1);
    PieceNumberMonotone(d.fileOffset, d.range.start, last, d.pieceSize);
    PieceNumberMonotone(d.fileOffset, last, d.range.end, d.pieceSize);
  }

  lemma {:induction false} AscendingInRange(s: seq<U32>, low: int, high: int)
    requires AscendingPieces(s) && low <= high && forall p :: p in s ==> low < p <= high
    ensures |s| <= high - low
  {
    if s != [] {
      var n := |s| - 1;
      assert s[n] in s;
      forall p | p in s[..n] ensures low < p && p < s[n] {
        var i :| 0 <= i < n && s[..n][i] == p;
        assert s[i] in s && s[i] < s[n];
      }
      var last: int := s[n];
      AscendingInRange(s[..n], low, last - 1);
    }
  }

  /** Which entries of the focus's schedule become critical in the plan. */
  lemma CriticalComesFromFocus(sorted: seq<StreamDemand>, w: StreamWindow, p: U32)
    requires sorted != [] && SortedPlan(sorted, w).Success?
    requires PiecePriority(p, Critical) in SortedPlan(sorted, w).value.pieces
    ensures PiecePriority(p, Critical) in FocusOf(sorted, w)
  {
    PlanParts(sorted, w);
    OnlyFocusIsCritical(SortedPlan(sorted, w).value, FocusOf(sorted, w), HeadOf(sorted, w), OthersOf(sorted, w), p);
  }

  lemma OnlyFocusIsCritical(plan: Plan, focused: seq<PiecePriority>, head: seq<PiecePriority>,
                            others: seq<seq<PiecePriority>>, p: U32)
    requires MadeOf(plan, focused, head, others) && PiecePriority(p, Critical) in plan.pieces
    ensures PiecePriority(p, Critical) in focused
  {
    CombinedUrgency(focused, head, others, p);
    UrgencyHasWitness(focused, p);
    UrgencyHasWitness(head, p);
    OthersUrgency(others, p);
  }

  lemma {:induction false} OthersUrgency(ss: seq<seq<PiecePriority>>, p: U32)
    requires forall i :: 0 <= i < |ss| ==> OnlyClass(ss[i], Blocking)
    ensures UrgencyInAll(ss, p) == 0 || UrgencyInAll(ss, p) == NO_URGENCY
  {
    if ss != [] {
      UrgencyHasWitness(ss[0], p);
      UrgencyBounded(ss[0], p);
      assert forall i :: 0 <= i < |ss[1..]| ==> ss[1..][i] == ss[i + 1];
      OthersUrgency(ss[1..], p);
    }
  }

  lemma NonEmptyScheduleIsExact(r: ScheduleRequest, s: seq<PiecePriority>)
    requires Schedule(r) == Success(s) && s != []
    ensures WellFormed(r) && IsScheduleOf(r, s)
  {
    ScheduleIsExact(r);
  }

  /** With a reader in focus, at most the limit of pieces is critical. */
  lemma CriticalLimitTheorem(demands: seq<StreamDemand>, w: StreamWindow)
    requires demands != [] && PlanFor(demands, w).Success?
    ensures SortById(demands) != []
    ensures var sorted := SortById(demands);
      sorted[|sorted| - 1].kind == Reader ==>
        |PiecesOf(PlanFor(demands, w).value.pieces, Critical)| <= w.criticalPieceLimit
  {
    SortKeepsElements(demands);
    var sorted := SortById(demands);
    var d := sorted[|sorted| - 1];
    var criticals := PiecesOf(PlanFor(demands, w).value.pieces, Critical);
    if d.kind == Reader && criticals != [] {
      PlanParts(sorted, w);
      PiecesOfAscending(PlanFor(demands, w).value.pieces, Critical);
      CriticalComesFromFocus(sorted, w, criticals[0]);
      var focused := FocusOf(sorted, w);
      NonEmptyScheduleIsExact(FocusedRequest(d, w), focused);
      forall p | p in criticals
        ensures LastPiece(d) < p <= LastPiece(d) + w.criticalPieceLimit
      {
        CriticalComesFromFocus(sorted, w, p);
        CriticalNearDemand(d, w, focused, PiecePriority(p, Critical));
      }
      AscendingInRange(criticals, LastPiece(d), LastPiece(d) + w.criticalPieceLimit);
    }
  }

  lemma {:induction false} AppendNewLength(order: seq<U32>, pieces: seq<U32>)
    ensures |AppendNew(order, pieces)| <= |order| + |pieces|
    decreases |pieces|
  {
    if pieces != [] {
      AppendNewLength(if pieces[0] in order then order else order + [pieces[0]], pieces[1..]);
    }
  }

  lemma {:induction false} AppendBlockersLength(order: seq<U32>, ss: seq<seq<PiecePriority>>)
    requires forall i :: 0 <= i < |ss| ==> |PiecesOf(ss[i], Blocking)| <= 1
    ensures |AppendBlockers(order, ss)| <= |order| + |ss|
    decreases |ss|
  {
    if ss != [] {
      AppendNewLength(order, PiecesOf(ss[0], Blocking));
      assert forall i :: 0 <= i < |ss[1..]| ==> ss[1..][i] == ss[i + 1];
      AppendBlockersLength(AppendNew(order, PiecesOf(ss[0], Blocking)), ss[1..]);
    }
  }

  /** A demand inside one piece blocks on at most that piece. */
  lemma OneBlocker(d: StreamDemand, r: ScheduleRequest, s: seq<PiecePriority>)
    requires SameDemand(d, r) && OnePiece(d) && Schedule(r) == Success(s)
    ensures |PiecesOf(s, Blocking)| <= 1
  {
    if s != [] {
      NonEmptyScheduleIsExact(r, s);
      var blockers := PiecesOf(s, Blocking);
      PiecesOfAscending(s, Blocking);
      forall p | p in blockers ensures p == LastPiece(d) {
        BlockingIsLastPiece(d, r, s, PiecePriority(p, Blocking));
      }
      AscendingInRange(blockers, LastPiece(d) - 1, LastPiece(d));
    }
  }

  lemma {:induction false} OtherReadersFrom(sorted: seq<StreamDemand>)
    ensures forall d :: d in OtherReaders(sorted) ==> d in sorted
  {
    if sorted != [] {
      OtherReadersFrom(sorted[..|sorted| - 1]);
      assert sorted == sorted[..|sorted| - 1] + [sorted[|sorted| - 1]];
    }
  }

  /** When every demand lies in one piece, deadlines number at most demands plus the limit. */
  lemma DeadlineBoundTheorem(demands: seq<StreamDemand>, w: StreamWindow)
    requires demands != [] && PlanFor(demands, w).Success?
    requires forall d :: d in demands ==> OnePiece(d)
    ensures |PlanFor(demands, w).value.deadlineOrder| <= |demands| + w.criticalPieceLimit
  {
    SortKeepsElements(demands);
    var sorted := SortById(demands);
    var n := |sorted| - 1;
    forall d | d in sorted ensures OnePiece(d) {
      assert d in multiset(sorted);
    }
    PlanParts(sorted, w);
    var focused, head, others := FocusOf(sorted, w), HeadOf(sorted, w), OthersOf(sorted, w);
    var readers := OtherReaders(sorted[..n]);
    ReaderSchedulesOnlyBlock(readers);
    OtherReadersFrom(sorted[..n]);
    forall i | 0 <= i < |others| ensures |PiecesOf(others[i], Blocking)| <= 1 {
      assert readers[i] in readers;
      OneBlocker(readers[i], BlockingRequest(readers[i], readers[i].range), others[i]);
    }
    var first := AppendNew([], PiecesOf(focused, Blocking));
    AppendNewLength([], PiecesOf(focused, Blocking));
    AppendBlockersLength(first, others);
    AppendNewLength(AppendBlockers(first, others), CriticalPieces(focused, head, others));
    FocusAndCriticals(sorted, w);
  }

  /** Where the critical pieces of a plan can lie. */
  lemma CriticalRange(sorted: seq<StreamDemand>, w: StreamWindow, s: seq<PiecePriority>, p: U32)
    requires sorted != [] && SortedPlan(sorted, w).Success? && OnePiece(sorted[|sorted| - 1])
    requires FocusOf(sorted, w) == FocusedSchedule(sorted[|sorted| - 1], s)
    requires WellFormed(FocusedRequest(sorted[|sorted| - 1], w)) && IsScheduleOf(FocusedRequest(sorted[|sorted| - 1], w), s)
    requires PiecePriority(p, Critical) in SortedPlan(sorted, w).value.pieces
    ensures var d := sorted[|sorted| - 1];
      LastPiece(d) - (if d.kind == Reader then 0 else 1) < p <= LastPiece(d) + w.criticalPieceLimit
  {
    var d := sorted[|sorted| - 1];
    CriticalComesFromFocus(sorted, w, p);
    if PiecePriority(p, Critical) in s {
      CriticalNearDemand(d, w, s, PiecePriority(p, Critical));
    } else {
      BlockingIsLastPiece(d, FocusedRequest(d, w), s, PiecePriority(p, Blocking));
    }
  }

  /** The focus's blocker and the critical pieces together are at most the limit plus one. */
  lemma FocusAndCriticals(sorted: seq<StreamDemand>, w: StreamWindow)
    requires sorted != [] && SortedPlan(sorted, w).Success? && OnePiece(sorted[|sorted| - 1])
    ensures |PiecesOf(FocusOf(sorted, w), Blocking)|
            + |CriticalPieces(FocusOf(sorted, w), HeadOf(sorted, w), OthersOf(sorted, w))|
            <= 1 + w.criticalPieceLimit
  {
    var d := sorted[|sorted| - 1];
    FocusBlockers(d, FocusedRequest(d, w), Schedule(FocusedRequest(d, w)).value);
    CriticalsBounded(sorted, w);
  }

  /** One more piece may be critical when the focus is no reader, as then nothing blocks. */
  lemma CriticalsBounded(sorted: seq<StreamDemand>, w: StreamWindow)
    requires sorted != [] && SortedPlan(sorted, w).Success? && OnePiece(sorted[|sorted| - 1])
    ensures |CriticalPieces(FocusOf(sorted, w), HeadOf(sorted, w), OthersOf(sorted, w))| <=
      w.criticalPieceLimit + if sorted[|sorted| - 1].kind == Reader then 0 else 1
  {
    var d := sorted[|sorted| - 1];
    var focused := FocusOf(sorted, w);
    var criticals := CriticalPieces(focused, HeadOf(sorted, w), OthersOf(sorted, w));
    PiecesOfAscending(InPieceOrder(Combined(focused, HeadOf(sorted, w), OthersOf(sorted, w))), Critical);
    if criticals != [] {
      var low := LastPiece(d) - (if d.kind == Reader then 0 else 1);
      CriticalsInRange(sorted, w, criticals);
      AscendingInRange(criticals, low, LastPiece(d) + w.criticalPieceLimit);
    }
  }

  lemma CriticalsInRange(sorted: seq<StreamDemand>, w: StreamWindow, criticals: seq<U32>)
    requires sorted != [] && SortedPlan(sorted, w).Success? && OnePiece(sorted[|sorted| - 1]) && criticals != []
    requires criticals == CriticalPieces(FocusOf(sorted, w), HeadOf(sorted, w), OthersOf(sorted, w))
    ensures var d := sorted[|sorted| - 1];
      && d.pieceSize > 0
      && forall p :: p in criticals ==>
           LastPiece(d) - (if d.kind == Reader then 0 else 1) < p <= LastPiece(d) + w.criticalPieceLimit
  {
    var d := sorted[|sorted| - 1];
    var s := Schedule(FocusedRequest(d, w)).value;
    PlanParts(sorted, w);
    CriticalComesFromFocus(sorted, w, criticals[0]);
    NonEmptyScheduleIsExact(FocusedRequest(d, w), s);
    forall p | p in criticals
      ensures LastPiece(d) - (if d.kind == Reader then 0 else 1) < p <= LastPiece(d) + w.criticalPieceLimit
    {
      CriticalRange(sorted, w, s, p);
    }
  }

  lemma FocusBlockers(d: StreamDemand, r: ScheduleRequest, s: seq<PiecePriority>)
    requires SameDemand(d, r) && OnePiece(d) && Schedule(r) == Success(s)
    ensures |PiecesOf(FocusedSchedule(d, s), Blocking)| <= if d.kind == Reader then 1 else 0
  {
    if d.kind == Reader {
      OneBlocker(d, r, s);
    } else {
      var focused := FocusedSchedule(d, s);
      NonEmptyHasMember(PiecesOf(focused, Blocking));
      assert forall x :: x in focused ==> x.cls != Blocking;
    }
  }

  // ----- the order of the demands does not matter -----

  predicate DistinctIds(s: seq<StreamDemand>) {
    forall i, j :: 0 <= i < j < |s| ==> s[i].id != s[j].id
  }

  /** With distinct ids the whole plan is the same for every order of the demands. */
  lemma PlanIgnoresOrder(demands: seq<StreamDemand>, reordered: seq<StreamDemand>, w: StreamWindow)
    requires multiset(demands) == multiset(reordered) && DistinctIds(demands)
    ensures PlanFor(demands, w) == PlanFor(reordered, w)
  {
    forall x, y | x in demands && y in demands && !BY_ID(x, y) && !BY_ID(y, x) ensures x == y {
      var i :| 0 <= i < |demands| && demands[i] == x;
      var j :| 0 <= j < |demands| && demands[j] == y;
    }
    Sorting.SortIgnoresOrder(demands, reordered, BY_ID);
    assert |demands| == |multiset(demands)| == |multiset(reordered)| == |reordered|;
  }

  lemma PlannedFocus(sorted: seq<StreamDemand>, w: StreamWindow)
    requires sorted != [] && SortedPlan(sorted, w).Success?
    ensures SortedPlan(sorted, w).value.focusedDemandId == sorted[|sorted| - 1].id
  {
  }

  /** The plan is focused on the newest of its demands. */
  lemma FocusIsNewest(demands: seq<StreamDemand>, w: StreamWindow)
    requires demands != [] && PlanFor(demands, w).Success?
    ensures var focus := PlanFor(demands, w).value.focusedDemandId;
      (exists d :: d in demands && d.id == focus) && forall d :: d in demands ==> d.id <= focus
  {
    var sorted := SortById(demands);
    SortKeepsElements(demands);
    PlannedFocus(sorted, w);
    var last := sorted[|sorted| - 1];
    assert last in multiset(sorted);
    forall d | d in demands ensures d.id <= last.id {
      assert d in multiset(demands) && d in sorted;
    }
  }
}
