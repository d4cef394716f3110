/**
 Combining the demands of all readers of a torrent into one plan: a priority for
 every wanted piece, and the order in which urgent pieces get deadlines.
 */
module DemandPlan {
  import opened Common
  import opened PieceScheduler
  import Sorting

  datatype DemandKind = Reader | Anchor | Prefetch

  datatype StreamDemand = StreamDemand(
    id: U64, fileOffset: U64, fileSize: U64, pieceSize: U32, range: ByteRange,
    kind: DemandKind, cold: bool)

  datatype StreamWindow = StreamWindow(
    criticalBytes: U64, criticalPieceLimit: U32, playbackBytes: U64, readaheadBytes: U64, tailBytes: U64)

  datatype Plan = Plan(focusedDemandId: U64, pieces: seq<PiecePriority>, deadlineOrder: seq<U32>, cold: bool)

  const EMPTY_PLAN := Plan(0, [], [], false)

  // ----- the pieces of the plan, as functions -----

  const BY_ID := (a: StreamDemand, b: StreamDemand) => a.id < b.id

  function SortById(s: seq<StreamDemand>): seq<StreamDemand> {
    Sorting.Sort(s, BY_ID)
  }

  function IsCold(focused: StreamDemand): bool {
    focused.kind == Prefetch || focused.cold
  }

  function CriticalBytes(focused: StreamDemand, window: StreamWindow): U64 {
    ProductFits(window.criticalPieceLimit, focused.pieceSize);
    if IsCold(focused) then 0
    else Min(window.criticalBytes, window.criticalPieceLimit * focused.pieceSize)
  }

  lemma ProductFits(a: U32, b: U32)
    ensures 0 <= a * b <= U64_MAX
  {
    ProductNonNegative(a, b);
    ProductNonNegative(U32_MAX - a, b);
    assert (U32_MAX - a) * b == U32_MAX * b - a * b;
  }

  function FocusedRequest(d: StreamDemand, w: StreamWindow): ScheduleRequest {
    ScheduleRequest(d.fileOffset, d.fileSize, d.pieceSize, d.range,
                    CriticalBytes(d, w), w.playbackBytes, w.readaheadBytes, w.tailBytes)
  }

  /** Only the bytes a reader is blocked on. */
  function BlockingRequest(d: StreamDemand, range: ByteRange): ScheduleRequest {
    ScheduleRequest(d.fileOffset, d.fileSize, d.pieceSize, range, 0, 0, 0, 0)
  }

  /** The same pieces, with one class replaced by another. */
  function Reclass(s: seq<PiecePriority>, from: PriorityClass, to: PriorityClass): (t: seq<PiecePriority>)
    ensures |t| == |s|
  {
    seq(|s|, i requires 0 <= i < |s| =>
      if s[i].cls == from then PiecePriority(s[i].piece, to) else s[i])
  }

  /** A focus that is no reader blocks nobody: its demand is merely critical. */
  function FocusedSchedule(d: StreamDemand, s: seq<PiecePriority>): seq<PiecePriority> {
    if d.kind == Reader then s else Reclass(s, Blocking, Critical)
  }

  /** How much of the start of the file is wanted when the focus reads near its end. */
  function HeadBytes(d: StreamDemand, w: StreamWindow): U64 {
    var indexBytes := Min(Max(w.tailBytes, d.fileSize / 64), d.fileSize);
    if w.tailBytes > 0 && d.range.start >= d.fileSize - indexBytes
    then Min(WrappingAdd(CriticalBytes(d, w), w.playbackBytes), d.fileSize)
    else 0
  }

  function HeadSchedule(d: StreamDemand, w: StreamWindow): Result<seq<PiecePriority>> {
    StartSchedule(d, HeadBytes(d, w))
  }

  /** The first bytes of the file, wanted for playback. */
  function StartSchedule(d: StreamDemand, bytes: U64): Result<seq<PiecePriority>> {
    if bytes == 0 then Success([])
    else
      var s := Schedule(BlockingRequest(d, ByteRange(0, bytes - 1)));
      if s.Failure? then s else Success(AllPlayback(s.value))
  }

  function AllPlayback(s: seq<PiecePriority>): (t: seq<PiecePriority>)
    ensures |t| == |s|
  {
    seq(|s|, i requires 0 <= i < |s| => PiecePriority(s[i].piece, Playback))
  }

  /** The other readers, newest first. */
  function OtherReaders(sorted: seq<StreamDemand>): (r: seq<StreamDemand>)
    ensures |r| <= |sorted|
  {
    if sorted == [] then []
    else
      var d := sorted[|sorted| - 1];
      (if d.kind == Reader then [d] else []) + OtherReaders(sorted[..|sorted| - 1])
  }

  function ReaderSchedules(readers: seq<StreamDemand>): (r: Result<seq<seq<PiecePriority>>>)
    ensures r.Success? ==> |r.value| == |readers|
  {
    if readers == [] then Success([])
    else
      var s := Schedule(BlockingRequest(readers[0], readers[0].range));
      if s.Failure? then Failure(s.error)
      else
        var rest := ReaderSchedules(readers[1..]);
        if rest.Failure? then rest else Success([s.value] + rest.value)
  }

  function MergeOne(m: Classes, x: PiecePriority): Classes {
    if x.piece !in m || x.cls.Rank() < m[x.piece].Rank() then m[x.piece := x.cls] else m
  }

  function Merge(m: Classes, s: seq<PiecePriority>): Classes
    decreases |s|
  {
    if s == [] then m else Merge(MergeOne(m, s[0]), s[1..])
  }

  function MergeAll(m: Classes, ss: seq<seq<PiecePriority>>): Classes
    decreases |ss|
  {
    if ss == [] then m else MergeAll(Merge(m, ss[0]), ss[1..])
  }

  /** The pieces of one class, in the order of the sequence. */
  function PiecesOf(s: seq<PiecePriority>, cls: PriorityClass): (r: seq<U32>)
    ensures |r| <= |s|
    ensures forall p: U32 :: p in r <==> PiecePriority(p, cls) in s
  {
    if s == [] then []
    else (if s[0].cls == cls then [s[0].piece] else []) + PiecesOf(s[1..], cls)
  }

  /** `order` followed by the elements of `pieces` it does not yet hold. */
  function AppendNew(order: seq<U32>, pieces: seq<U32>): seq<U32>
    decreases |pieces|
  {
    if pieces == [] then order
    else AppendNew(if pieces[0] in order then order else order + [pieces[0]], pieces[1..])
  }

  function AppendBlockers(order: seq<U32>, ss: seq<seq<PiecePriority>>): seq<U32>
    decreases |ss|
  {
    if ss == [] then order else AppendBlockers(AppendNew(order, PiecesOf(ss[0], Blocking)), ss[1..])
  }

  function Assemble(d: StreamDemand, focused: seq<PiecePriority>, head: seq<PiecePriority>,
                    others: seq<seq<PiecePriority>>): Plan
  {
    var combined := MergeAll(Merge(Merge(map[], focused), head), others);
    var blockers := AppendBlockers(AppendNew([], PiecesOf(focused, Blocking)), others);
    Plan(d.id, Flatten(combined),
         AppendNew(blockers, PiecesOf(InPieceOrder(combined), Critical)), IsCold(d))
  }

  /** The plan for a set of demands, or the error of the first schedule that cannot be built. */
  function PlanFor(demands: seq<StreamDemand>, window: StreamWindow): Result<Plan> {
    if demands == [] then Success(EMPTY_PLAN) else SortedPlan(SortById(demands), window)
  }

  function SortedPlan(sorted: seq<StreamDemand>, window: StreamWindow): Result<Plan> {
    if sorted == [] then Success(EMPTY_PLAN)
    else
      var n := |sorted| - 1;
      var d := sorted[n];
      var focused := Schedule(FocusedRequest(d, window));
      if focused.Failure? then Failure(focused.error)
      else
        var head := HeadSchedule(d, window);
        if head.Failure? then Failure(head.error)
        else
          var others := ReaderSchedules(OtherReaders(sorted[..n]));
          if others.Failure? then Failure(others.error)
          else Success(Assemble(d, FocusedSchedule(d, focused.value), head.value, others.value))
  }

  // ----- the program -----

  method MergeSchedule(combined: Classes, schedule: seq<PiecePriority>) returns (m: Classes)
    ensures m == Merge(combined, schedule)
  {
    m := combined;
    for i := 0 to |schedule|
      invariant Merge(m, schedule[i..]) == Merge(combined, schedule)
    {
      var x := schedule[i];
      assert schedule[i..][1..] == schedule[i + 1..];
      if x.piece !in m || x.cls.Rank() < m[x.piece].Rank() {
        m := m[x.piece := x.cls];
      }
    }
  }

  /** Appends the pieces of one class that have no deadline yet. */
  method AppendDeadlines(order: seq<U32>, ordered: set<U32>, schedule: seq<PiecePriority>, cls: PriorityClass)
    returns (order': seq<U32>, ordered': set<U32>)
    requires forall p :: p in ordered <==> p in order
    ensures order' == AppendNew(order, PiecesOf(schedule, cls))
    ensures forall p :: p in ordered' <==> p in order'
  {
    order', ordered' := order, ordered;
    for i := 0 to |schedule|
      invariant AppendNew(order', PiecesOf(schedule[i..], cls)) == AppendNew(order, PiecesOf(schedule, cls))
      invariant forall p :: p in ordered' <==> p in order'
    {
      var x := schedule[i];
      assert schedule[i..][0] == x && schedule[i..][1..] == schedule[i + 1..];
      if x.cls == cls {
        assert PiecesOf(schedule[i..], cls)[1..] == PiecesOf(schedule[i + 1..], cls);
        if x.piece !in ordered' {
          order', ordered' := order' + [x.piece], ordered' + {x.piece};
        }
      } else {
        assert PiecesOf(schedule[i..], cls) == PiecesOf(schedule[i + 1..], cls);
      }
    }
  }

  method BuildStreamDemandPlan(demands: seq<StreamDemand>, window: StreamWindow)
    returns (result: Result<Plan>)
    ensures result == PlanFor(demands, window)
  {
    if demands == [] {
      return Success(EMPTY_PLAN);
    }
    var sorted := SortById(demands);
    SortKeepsElements(demands);
    var n := |sorted| - 1;
    var d := sorted[n];
    var focused := BuildPieceSchedule(FocusedRequest(d, window));
    if focused.Failure? {
      return Failure(focused.error);
    }
    var schedule := FocusedSchedule(d, focused.value);
    var combined := MergeSchedule(map[], schedule);
    var head: Result<seq<PiecePriority>> := Success([]);
    if HeadBytes(d, window) > 0 {
      head := BuildPieceSchedule(BlockingRequest(d, ByteRange(0, HeadBytes(d, window) - 1)));
      if head.Failure? {
        return Failure(head.error);
      }
      head := Success(AllPlayback(head.value));
    }
    combined := MergeSchedule(combined, head.value);
    var order, ordered := AppendDeadlines([], {}, schedule, Blocking);
    WithReadersIsMergeAll(OtherReaders(sorted[..n]), combined, order);
    var error;
    error, combined, order, ordered := AddOtherReaders(sorted[..n], combined, order, ordered);
    if error.Some? {
      return Failure(error.value);
    }
    order, ordered := AppendDeadlines(order, ordered, InPieceOrder(combined), Critical);
    return Success(Plan(d.id, Flatten(combined), order, IsCold(d)));
  }

  /** What walking the other readers leaves in the map and the deadline list. */
  ghost function WithReaders(readers: seq<StreamDemand>, m: Classes, order: seq<U32>)
    : Result<(Classes, seq<U32>)>
    decreases |readers|
  {
    if readers == [] then Success((m, order))
    else
      var s := Schedule(BlockingRequest(readers[0], readers[0].range));
      if s.Failure? then Failure(s.error)
      else WithReaders(readers[1..], Merge(m, s.value), AppendNew(order, PiecesOf(s.value, Blocking)))
  }

  lemma {:induction false} WithReadersIsMergeAll(readers: seq<StreamDemand>, m: Classes, order: seq<U32>)
    ensures var ss := ReaderSchedules(readers);
      WithReaders(readers, m, order) ==
      if ss.Failure? then Failure(ss.error)
      else Success((MergeAll(m, ss.value), AppendBlockers(order, ss.value)))
    decreases |readers|
  {
    if readers != [] {
      var s := Schedule(BlockingRequest(readers[0], readers[0].range));
      if s.Success? {
        WithReadersIsMergeAll(readers[1..], Merge(m, s.value), AppendNew(order, PiecesOf(s.value, Blocking)));
        var ss := ReaderSchedules(readers[1..]);
        if ss.Success? {
          assert ([s.value] + ss.value)[1..] == ss.value;
        }
      }
    }
  }

  lemma OlderReaders(sorted: seq<StreamDemand>, i: nat, m: Classes, order: seq<U32>)
    requires i < |sorted|
    ensures var d, s := sorted[i], Schedule(BlockingRequest(sorted[i], sorted[i].range));
      WithReaders(OtherReaders(sorted[..i + 1]), m, order) ==
      if d.kind != Reader then WithReaders(OtherReaders(sorted[..i]), m, order)
      else if s.Failure? then Failure(s.error)
      else WithReaders(OtherReaders(sorted[..i]), Merge(m, s.value), AppendNew(order, PiecesOf(s.value, Blocking)))
  {
    var d, rest := sorted[i], OtherReaders(sorted[..i]);
    assert sorted[..i + 1][i] == d && sorted[..i + 1][..i] == sorted[..i];
    if d.kind == Reader {
      assert OtherReaders(sorted[..i + 1]) == [d] + rest && ([d] + rest)[1..] == rest;
    } else {
      assert OtherReaders(sorted[..i + 1]) == rest;
    }
  }

  /** Walks the older demands from the newest to the oldest. */
  method AddOtherReaders(sorted: seq<StreamDemand>, combined: Classes, order: seq<U32>, ordered: set<U32>)
    returns (error: Option<ScheduleError>, combined': Classes, order': seq<U32>, ordered': set<U32>)
    requires forall p :: p in ordered <==> p in order
    ensures WithReaders(OtherReaders(sorted), combined, order) ==
            if error.Some? then Failure(error.value) else Success((combined', order'))
    ensures forall p :: p in ordered' <==> p in order'
  {
    combined', order', ordered' := combined, order, ordered;
    var i := |sorted|;
    assert sorted[..i] == sorted;
    while i > 0
      invariant 0 <= i <= |sorted|
      invariant forall p :: p in ordered' <==> p in order'
      invariant WithReaders(OtherReaders(sorted[..i]), combined', order') ==
                WithReaders(OtherReaders(sorted), combined, order)
    {
      i := i - 1;
      var d := sorted[i];
      OlderReaders(sorted, i, combined', order');
      if d.kind == Reader {
        var schedule := BuildPieceSchedule(BlockingRequest(d, d.range));
        if schedule.Failure? {
          return Some(schedule.error), combined', order', ordered';
        }
        combined' := MergeSchedule(combined', schedule.value);
        order', ordered' := AppendDeadlines(order', ordered', schedule.value, Blocking);
      }
    }
    error := None;
  }

  lemma SortKeepsElements(s: seq<StreamDemand>)
    ensures Sorting.Sorted(SortById(s), BY_ID) && multiset(SortById(s)) == multiset(s) && |SortById(s)| == |s|
  {
    Sorting.SortSorts(s, BY_ID);
  }
}
