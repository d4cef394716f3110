/**
 Turning one reader's demand into piece priorities.  Every byte position is a
 64-bit number in the program; the specification below uses unbounded integers,
 and the methods are proved to agree with it or to throw.
 */
module PieceScheduler {
  import opened Common

  datatype PriorityClass = Blocking | Critical | Playback | MetadataTail | Readahead {
    function Rank(): nat {
      match this
      case Blocking => 0
      case Critical => 1
      case Playback => 2
      case MetadataTail => 3
      case Readahead => 4
    }
  }

  datatype PiecePriority = PiecePriority(piece: U32, cls: PriorityClass)

  datatype ScheduleRequest = ScheduleRequest(
    fileOffset: U64, fileSize: U64, pieceSize: U32, demand: ByteRange,
    criticalBytes: U64, playbackBytes: U64, readaheadBytes: U64, tailBytes: U64)

  datatype ScheduleError = InvalidArgument | PieceIndexOverflow

  datatype Result<+T> = Success(value: T) | Failure(error: ScheduleError)

  // ----- specification: windows of bytes, pieces they touch -----

  /** A span of file-relative bytes, both ends included, wanted with one class. */
  datatype Window = Window(first: int, last: int, cls: PriorityClass)

  predicate WellFormed(r: ScheduleRequest) {
    && r.pieceSize > 0
    && r.demand.start <= r.demand.end
    && r.demand.start < r.fileSize
  }

  /** The span of at most `bytes` bytes from `start`, inside the file. */
  function Span(r: ScheduleRequest, start: int, bytes: int, cls: PriorityClass): seq<Window> {
    if start < r.fileSize && bytes > 0
    then [Window(start, Min(start + bytes, r.fileSize) - 1, cls)]
    else []
  }

  function SpanEnd(r: ScheduleRequest, start: int, bytes: int): int {
    if start < r.fileSize && bytes > 0 then Min(start + bytes, r.fileSize) else start
  }

  /** The demand and the windows that follow it, in unbounded integers. */
  function DemandWindows(r: ScheduleRequest): seq<Window> {
    var critical := Min(r.demand.end + 1, r.fileSize);
    var playback := SpanEnd(r, critical, r.criticalBytes);
    var readahead := SpanEnd(r, playback, r.playbackBytes);
    [Window(r.demand.start, Min(r.demand.end, r.fileSize - 1), Blocking)]
    + Span(r, critical, r.criticalBytes, Critical)
    + Span(r, playback, r.playbackBytes, Playback)
    + Span(r, readahead, r.readaheadBytes, Readahead)
  }

  /** The windows of a request, in unbounded integers. */
  function Windows(r: ScheduleRequest): seq<Window> {
    DemandWindows(r)
    + Span(r, r.fileSize - Min(r.tailBytes, r.fileSize), Min(r.tailBytes, r.fileSize), MetadataTail)
  }

  /** Piece `p` holds some byte of the window. */
  ghost predicate Touches(r: ScheduleRequest, w: Window, p: int)
    requires r.pieceSize > 0
  {
    exists b {:trigger PieceOf(r, b)} :: w.first <= b <= w.last && PieceOf(r, b) == p
  }

  function PieceOf(r: ScheduleRequest, b: int): int
    requires r.pieceSize > 0
  {
    PieceNumber(r.fileOffset, b, r.pieceSize)
  }

  /** Some window needs a piece whose number does not fit 32 bits. */
  ghost predicate Overflows(r: ScheduleRequest)
    requires r.pieceSize > 0
  {
    exists w, p {:trigger Touches(r, w, p)} :: w in Windows(r) && Touches(r, w, p) && p > U32_MAX
  }

  /** `cls` is the most urgent class of any of the windows that touch `p`. */
  ghost predicate MostUrgent(r: ScheduleRequest, ws: seq<Window>, p: int, cls: PriorityClass)
    requires r.pieceSize > 0
  {
    && (exists w :: w in ws && Touches(r, w, p) && w.cls == cls)
    && (forall w :: w in ws && Touches(r, w, p) ==> cls.Rank() <= w.cls.Rank())
  }

  predicate Before(a: PiecePriority, b: PiecePriority) {
    a.cls.Rank() < b.cls.Rank() || (a.cls == b.cls && a.piece < b.piece)
  }

  ghost predicate Sorted(s: seq<PiecePriority>) {
    forall i, j :: 0 <= i < j < |s| ==> Before(s[i], s[j])
  }

  /** The whole meaning of a schedule: exactly the touched pieces, in order. */
  ghost predicate IsScheduleOf(r: ScheduleRequest, s: seq<PiecePriority>)
    requires r.pieceSize > 0
  {
    && Sorted(s)
    && (forall x: PiecePriority :: x in s <==> MostUrgent(r, Windows(r), x.piece, x.cls))
  }

  /** A window inside the file touches exactly the pieces between its two ends. */
  lemma TouchesInterval(r: ScheduleRequest, w: Window, p: int)
    requires r.pieceSize > 0 && w.first <= w.last
    ensures Touches(r, w, p) <==> PieceOf(r, w.first) <= p <= PieceOf(r, w.last)
  {
    var d := r.pieceSize;
    if Touches(r, w, p) {
      var b :| w.first <= b <= w.last && PieceOf(r, b) == p;
      DivisionMonotone(r.fileOffset + w.first, r.fileOffset + b, d);
      DivisionMonotone(r.fileOffset + b, r.fileOffset + w.last, d);
    }
    if PieceOf(r, w.first) <= p <= PieceOf(r, w.last) {
      var x := QuotientHit(r.fileOffset + w.first, r.fileOffset + w.last, d, p);
      assert PieceOf(r, x - r.fileOffset) == p;
    }
  }

  lemma WindowsInsideFile(r: ScheduleRequest)
    requires WellFormed(r)
    ensures forall w :: w in Windows(r) ==> 0 <= w.first <= w.last < r.fileSize
    ensures forall w :: w in Windows(r) ==> (w.cls == Blocking <==> w == Windows(r)[0])
  {
  }

  // ----- the classes as a map: what the program accumulates -----

  type Classes = map<U32, PriorityClass>

  /** `m` with the pieces `first..last` raised to at least `cls`. */
  function Overlay(m: Classes, first: U32, last: U32, cls: PriorityClass): (r: Classes) {
    map p: U32 | p in m.Keys + PieceSet(first, last) ::
      if first <= p <= last then Raised(m, p, cls) else m[p]
  }

  function Raised(m: Classes, p: U32, cls: PriorityClass): PriorityClass {
    if p in m && m[p].Rank() <= cls.Rank() then m[p] else cls
  }

  function PieceSet(first: U32, last: U32): (s: set<U32>)
    ensures forall p: U32 :: p in s <==> first <= p <= last
    decreases last - first
  {
    if first > last then {} else if first == last then {first} else PieceSet(first, last - 1) + {last}
  }

  /** The windows lie in the file's bytes and their pieces have 32-bit numbers. */
  predicate Fits(r: ScheduleRequest, ws: seq<Window>)
    requires r.pieceSize > 0
  {
    forall w :: w in ws ==> 0 <= w.first <= w.last && PieceOf(r, w.last) <= U32_MAX
  }

  /** The classes after all of `ws`, applied in order. */
  function ClassesOf(r: ScheduleRequest, ws: seq<Window>): (m: Classes)
    requires r.pieceSize > 0
    requires Fits(r, ws)
  {
    if ws == [] then map[]
    else
      var n := |ws| - 1;
      var w := ws[n];
      assert w in ws;
      PieceNumberMonotone(r.fileOffset, w.first, w.last, r.pieceSize);
      Overlay(ClassesOf(r, ws[..n]), PieceOf(r, w.first), PieceOf(r, w.last), w.cls)
  }

  lemma {:induction false} ClassesAreMostUrgent(r: ScheduleRequest, ws: seq<Window>, p: U32)
    requires r.pieceSize > 0
    requires Fits(r, ws)
    ensures p in ClassesOf(r, ws) <==> exists w :: w in ws && Touches(r, w, p)
    ensures p in ClassesOf(r, ws) ==> MostUrgent(r, ws, p, ClassesOf(r, ws)[p])
  {
    if ws != [] {
      var n := |ws| - 1;
      var rest, w := ws[..n], ws[n];
      assert ws == rest + [w];
      ClassesAreMostUrgent(r, rest, p);
      PieceNumberMonotone(r.fileOffset, w.first, w.last, r.pieceSize);
      TouchesInterval(r, w, p);
      var m, m' := ClassesOf(r, rest), ClassesOf(r, ws);
      if p in m' {
        if p in m && m'[p] == m[p] {
          var v :| v in rest && Touches(r, v, p) && v.cls == m[p];
          assert v in ws;
        } else {
          assert w in ws && Touches(r, w, p) && w.cls == m'[p];
        }
        forall v | v in ws && Touches(r, v, p) ensures m'[p].Rank() <= v.cls.Rank() {
          if v in rest {
            assert p in m;
          }
        }
      } else {
        assert p !in m && !Touches(r, w, p);
      }
    }
  }

  // ----- ordering the map into a schedule -----

  predicate IsSmallest(k: U32, s: set<U32>) {
    k in s && forall j :: j in s ==> k <= j
  }

  lemma {:induction false} SmallestExists(s: set<U32>)
    requires s != {}
    ensures exists k :: IsSmallest(k, s)
  {
    var x :| x in s;
    var rest := s - {x};
    if rest == {} {
      assert s == {x};
      assert IsSmallest(x, s);
    } else {
      SmallestExists(rest);
      var k :| IsSmallest(k, rest);
      var m := if x < k then x else k;
      forall j | j in s ensures m <= j {
        assert j == x || j in rest;
      }
      assert IsSmallest(m, s);
    }
  }

  function Smallest(s: set<U32>): (k: U32)
    requires s != {}
    ensures IsSmallest(k, s)
  {
    SmallestExists(s);
    var k :| IsSmallest(k, s);
    k
  }

  predicate Ascending(s: seq<PiecePriority>) {
    forall i, j :: 0 <= i < j < |s| ==> s[i].piece < s[j].piece
  }

  /** Iterating an ordered map: its entries by ascending piece. */
  function InPieceOrder(m: Classes): (s: seq<PiecePriority>)
    ensures Ascending(s)
    ensures forall x: PiecePriority :: x in s <==> x.piece in m && m[x.piece] == x.cls
    ensures |s| == |m|
    decreases |m|
  {
    if m == map[] then []
    else
      var k := Smallest(m.Keys);
      var rest := m - {k};
      var tail := InPieceOrder(rest);
      assert m.Keys == rest.Keys + {k};
      assert forall x: PiecePriority :: x in tail ==> x.piece in rest && k < x.piece;
      [PiecePriority(k, m[k])] + tail
  }

  /** A stable sort by class: an element goes before those of its own class that follow it. */
  function StableInsert(x: PiecePriority, s: seq<PiecePriority>): seq<PiecePriority> {
    if s == [] || x.cls.Rank() <= s[0].cls.Rank() then [x] + s
    else [s[0]] + StableInsert(x, s[1..])
  }

  function StableSort(s: seq<PiecePriority>): seq<PiecePriority> {
    if s == [] then [] else StableInsert(s[0], StableSort(s[1..]))
  }

  lemma {:induction false} StableInsertSorted(x: PiecePriority, s: seq<PiecePriority>)
    requires Sorted(s) && forall y :: y in s ==> x.piece < y.piece
    ensures Sorted(StableInsert(x, s))
    ensures forall y :: y in StableInsert(x, s) <==> y == x || y in s
    ensures |StableInsert(x, s)| == |s| + 1
  {
    if s == [] {
    } else if x.cls.Rank() <= s[0].cls.Rank() {
      forall y | y in s ensures Before(x, y) {
        var i :| 0 <= i < |s| && s[i] == y;
        assert i > 0 ==> Before(s[0], s[i]);
      }
    } else {
      StableInsertSorted(x, s[1..]);
      var t := StableInsert(x, s[1..]);
      assert s == [s[0]] + s[1..];
      forall y | y in t ensures Before(s[0], y) {
        if y != x {
          var i :| 0 <= i < |s[1..]| && s[1..][i] == y;
          assert Before(s[0], s[i + 1]);
        }
      }
    }
  }

  lemma {:induction false} StableSortSorts(s: seq<PiecePriority>)
    requires Ascending(s)
    ensures Sorted(StableSort(s))
    ensures forall y :: y in StableSort(s) <==> y in s
    ensures |StableSort(s)| == |s|
  {
    if s != [] {
      assert s == [s[0]] + s[1..];
      StableSortSorts(s[1..]);
      assert forall y :: y in s[1..] ==> s[0].piece < y.piece;
      StableInsertSorted(s[0], StableSort(s[1..]));
    }
  }

  /** The vector the program returns for an accumulated map. */
  function Flatten(m: Classes): (s: seq<PiecePriority>)
    ensures Sorted(s)
    ensures forall x: PiecePriority :: x in s <==> x.piece in m && m[x.piece] == x.cls
    ensures |s| == |m|
  {
    StableSortSorts(InPieceOrder(m));
    StableSort(InPieceOrder(m))
  }

  /** Two sorted schedules with the same entries are the same sequence. */
  lemma {:induction false} SortedUnique(s: seq<PiecePriority>, t: seq<PiecePriority>)
    requires Sorted(s) && Sorted(t) && forall x :: x in s <==> x in t
    ensures s == t
  {
    NonEmptyHasMember(s);
    NonEmptyHasMember(t);
    if s != [] && t != [] {
      assert s[0] in t;
      assert t[0] in s;
      assert s[0] == t[0];
      assert s == [s[0]] + s[1..] && t == [t[0]] + t[1..];
      assert s[0] !in s[1..] && t[0] !in t[1..];
      forall x ensures x in s[1..] <==> x in t[1..] {
        assert x in s[1..] ==> x in s;
        assert x in t[1..] ==> x in t;
      }
      SortedUnique(s[1..], t[1..]);
    }
  }

  // ----- the program -----

  /** Some window ends beyond the last 32-bit piece number. */
  predicate EndsTooFar(r: ScheduleRequest)
    requires r.pieceSize > 0 && WellFormed(r)
  {
    exists i :: 0 <= i < |Windows(r)| && PieceOf(r, Windows(r)[i].last) > U32_MAX
  }

  /** What building a schedule answers, as a function of the request. */
  function Schedule(r: ScheduleRequest): Result<seq<PiecePriority>> {
    if r.pieceSize == 0 then Failure(InvalidArgument)
    else if r.fileSize == 0 then Success([])
    else if !WellFormed(r) then Failure(InvalidArgument)
    else if EndsTooFar(r) then Failure(PieceIndexOverflow)
    else
      WindowsInsideFile(r);
      assert forall w :: w in Windows(r) ==> exists i :: 0 <= i < |Windows(r)| && Windows(r)[i] == w;
      Success(Flatten(ClassesOf(r, Windows(r))))
  }

  lemma OverflowsIff(r: ScheduleRequest)
    requires r.pieceSize > 0 && r.fileSize > 0 && WellFormed(r)
    ensures EndsTooFar(r) <==> Overflows(r)
  {
    WindowsInsideFile(r);
    var ws := Windows(r);
    if EndsTooFar(r) {
      var i :| 0 <= i < |ws| && PieceOf(r, ws[i].last) > U32_MAX;
      TouchesInterval(r, ws[i], PieceOf(r, ws[i].last));
      assert ws[i] in ws && Touches(r, ws[i], PieceOf(r, ws[i].last));
    } else {
      forall w, p | w in ws && Touches(r, w, p) ensures p <= U32_MAX {
        var i :| 0 <= i < |ws| && ws[i] == w;
        TouchesInterval(r, w, p);
      }
    }
  }

  lemma ListedIffMostUrgent(r: ScheduleRequest, ws: seq<Window>, x: PiecePriority)
    requires r.pieceSize > 0 && Fits(r, ws)
    ensures x in Flatten(ClassesOf(r, ws)) <==> MostUrgent(r, ws, x.piece, x.cls)
  {
    var m := ClassesOf(r, ws);
    ClassesAreMostUrgent(r, ws, x.piece);
    if MostUrgent(r, ws, x.piece, x.cls) {
      var w :| w in ws && Touches(r, w, x.piece) && w.cls == x.cls;
      assert x.piece in m && MostUrgent(r, ws, x.piece, m[x.piece]);
      assert m[x.piece].Rank() <= x.cls.Rank();
      var v :| v in ws && Touches(r, v, x.piece) && v.cls == m[x.piece];
      assert x.cls.Rank() <= v.cls.Rank();
    }
  }

  lemma BuiltScheduleIsExact(r: ScheduleRequest)
    requires r.pieceSize > 0 && r.fileSize > 0 && WellFormed(r) && !EndsTooFar(r)
    ensures Schedule(r).Success? && IsScheduleOf(r, Schedule(r).value)
  {
    WindowsInsideFile(r);
    var ws := Windows(r);
    assert forall w :: w in ws ==> exists i :: 0 <= i < |ws| && ws[i] == w;
    var s := Flatten(ClassesOf(r, ws));
    forall x: PiecePriority ensures x in s <==> MostUrgent(r, ws, x.piece, x.cls) {
      ListedIffMostUrgent(r, ws, x);
    }
    assert Schedule(r) == Success(s);
  }

  /** Either a throw for one of three stated reasons, or exactly the specified schedule. */
  lemma ScheduleIsExact(r: ScheduleRequest)
    ensures Schedule(r) == Failure(InvalidArgument) <==>
            r.pieceSize == 0 || (r.fileSize > 0 && !WellFormed(r))
    ensures Schedule(r) == Failure(PieceIndexOverflow) <==>
            r.pieceSize > 0 && r.fileSize > 0 && WellFormed(r) && Overflows(r)
    ensures Schedule(r).Success? && r.fileSize > 0 ==> IsScheduleOf(r, Schedule(r).value)
    ensures Schedule(r).Success? && r.fileSize == 0 ==> Schedule(r).value == []
  {
    if r.pieceSize > 0 && r.fileSize > 0 && WellFormed(r) {
      OverflowsIff(r);
      if !EndsTooFar(r) {
        BuiltScheduleIsExact(r);
      }
    }
  }

  function ExtendFrom(start: U64, additional: U64, fileSize: U64): (range: ByteRange)
  {
    var exclusiveEnd := Min(SaturatingAdd(start, additional), fileSize);
    ByteRange(start, if exclusiveEnd > start then exclusiveEnd - 1 else start)
  }

  /** A saturated sum divided by any 32-bit piece size is still no 32-bit piece number. */
  lemma SaturationOverflows(d: U32)
    requires d > 0
    ensures U64_MAX / d > U32_MAX
  {
    DivisionMonotone(d * (U32_MAX + 1), U64_MAX, d);
    DivisionUnique(d * (U32_MAX + 1), d, U32_MAX + 1);
  }

  /** Dividing the saturated sums either gives the true piece numbers or a last one out of range. */
  lemma SaturationIsHarmless(offset: U64, first: U64, last: U64, d: U32)
    requires d > 0 && first <= last
    ensures var low, high := SaturatingAdd(offset, first) / d, SaturatingAdd(offset, last) / d;
      high > U32_MAX <==> PieceNumber(offset, last, d) > U32_MAX
    ensures var low, high := SaturatingAdd(offset, first) / d, SaturatingAdd(offset, last) / d;
      high <= U32_MAX ==>
        && low == PieceNumber(offset, first, d)
        && high == PieceNumber(offset, last, d)
        && 0 <= low <= high
  {
    SaturationOverflows(d);
    DivisionMonotone(SaturatingAdd(offset, last), offset + last, d);
    DivisionMonotone(SaturatingAdd(offset, first), SaturatingAdd(offset, last), d);
    DivisionMonotone(0, SaturatingAdd(offset, first), d);
  }

  method RaisePieces(priorities: Classes, first: U32, last: U32, cls: PriorityClass)
    returns (m: Classes)
    requires first <= last
    ensures m == Overlay(priorities, first, last, cls)
  {
    m := priorities;
    var piece: int := first;
    while piece <= last
      invariant first <= piece <= last + 1
      invariant forall p: U32 :: p in m <==> p in priorities || first <= p < piece
      invariant forall p: U32 :: first <= p < piece ==> m[p] == Raised(priorities, p, cls)
      invariant forall p: U32 :: p in priorities && !(first <= p < piece) ==> m[p] == priorities[p]
    {
      if piece !in m || cls.Rank() < m[piece].Rank() {
        m := m[piece := cls];
      }
      piece := piece + 1;
    }
  }

  /** Raises the pieces of one range, or throws; 64-bit saturation never changes the outcome. */
  method AddRange(priorities: Classes, r: ScheduleRequest, range: ByteRange, cls: PriorityClass)
    returns (result: Result<Classes>)
    requires r.pieceSize > 0 && range.start <= range.end
    ensures r.fileSize == 0 || range.start >= r.fileSize ==> result == Success(priorities)
    ensures range.start < r.fileSize ==>
      (var last := PieceOf(r, Min(range.end, r.fileSize - 1));
       if last > U32_MAX then result == Failure(PieceIndexOverflow)
       else (0 <= PieceOf(r, range.start) <= last
             && result == Success(Overlay(priorities, PieceOf(r, range.start), last, cls))))
  {
    if r.fileSize == 0 || range.start >= r.fileSize {
      return Success(priorities);
    }
    var clampedEnd := Min(range.end, r.fileSize - 1);
    var absoluteStart := SaturatingAdd(r.fileOffset, range.start);
    var absoluteEnd := SaturatingAdd(r.fileOffset, clampedEnd);
    var firstPiece := absoluteStart / r.pieceSize;
    var lastPiece := absoluteEnd / r.pieceSize;
    SaturationIsHarmless(r.fileOffset, range.start, clampedEnd, r.pieceSize);
    if lastPiece > U32_MAX {
      return Failure(PieceIndexOverflow);
    }
    var raised := RaisePieces(priorities, firstPiece, lastPiece, cls);
    return Success(raised);
  }

  lemma OneMoreWindow(r: ScheduleRequest, ws: seq<Window>, w: Window)
    requires r.pieceSize > 0 && Fits(r, ws)
    requires 0 <= w.first <= w.last && PieceOf(r, w.last) <= U32_MAX
    ensures Fits(r, ws + [w])
    ensures 0 <= PieceOf(r, w.first) <= PieceOf(r, w.last)
    ensures ClassesOf(r, ws + [w]) ==
            Overlay(ClassesOf(r, ws), PieceOf(r, w.first), PieceOf(r, w.last), w.cls)
  {
    assert (ws + [w])[..|ws|] == ws;
    PieceNumberMonotone(r.fileOffset, w.first, w.last, r.pieceSize);
  }

  /** One of the windows that follow the demand: the classes so far, then where the next one starts. */
  method AddSpan(r: ScheduleRequest, priorities: Classes, nextStart: U64, bytes: U64,
                 cls: PriorityClass, ghost ws: seq<Window>)
    returns (ok: bool, extended: Classes, followingStart: U64)
    requires r.pieceSize > 0 && nextStart <= r.fileSize
    requires Fits(r, ws) && priorities == ClassesOf(r, ws)
    ensures !ok ==> exists w :: w in Span(r, nextStart, bytes, cls) && PieceOf(r, w.last) > U32_MAX
    ensures ok ==> Fits(r, ws + Span(r, nextStart, bytes, cls))
    ensures ok ==> extended == ClassesOf(r, ws + Span(r, nextStart, bytes, cls))
    ensures ok ==> followingStart == SpanEnd(r, nextStart, bytes) <= r.fileSize
  {
    if nextStart < r.fileSize && bytes > 0 {
      var range := ExtendFrom(nextStart, bytes, r.fileSize);
      ghost var w := Window(nextStart, Min(nextStart + bytes, r.fileSize) - 1, cls);
      assert w in Span(r, nextStart, bytes, cls);
      var step := AddRange(priorities, r, range, cls);
      if step.Failure? {
        return false, priorities, nextStart;
      }
      OneMoreWindow(r, ws, w);
      return true, step.value, Min(SaturatingAdd(range.end, 1), r.fileSize);
    }
    assert ws + Span(r, nextStart, bytes, cls) == ws;
    return true, priorities, nextStart;
  }

  /** Applies the demand and the windows that follow it; stops at the first overflow. */
  method AddDemandWindows(r: ScheduleRequest) returns (ok: bool, priorities: Classes)
    requires WellFormed(r)
    ensures ok ==> Fits(r, DemandWindows(r)) && priorities == ClassesOf(r, DemandWindows(r))
    ensures !ok ==> exists w :: w in DemandWindows(r) && PieceOf(r, w.last) > U32_MAX
  {
    var step := AddRange(map[], r, r.demand, Blocking);
    ghost var ws := [Window(r.demand.start, Min(r.demand.end, r.fileSize - 1), Blocking)];
    if step.Failure? {
      assert ws[0] in DemandWindows(r);
      return false, map[];
    }
    OneMoreWindow(r, [], ws[0]);
    assert [] + ws == ws;
    priorities := step.value;
    var nextStart: U64 := Min(SaturatingAdd(r.demand.end, 1), r.fileSize);
    ghost var span := Span(r, nextStart, r.criticalBytes, Critical);
    ok, priorities, nextStart := AddSpan(r, priorities, nextStart, r.criticalBytes, Critical, ws);
    if !ok { return; }
    ws := ws + span;
    span := Span(r, nextStart, r.playbackBytes, Playback);
    ok, priorities, nextStart := AddSpan(r, priorities, nextStart, r.playbackBytes, Playback, ws);
    if !ok { return; }
    ws := ws + span;
    ok, priorities, nextStart := AddSpan(r, priorities, nextStart, r.readaheadBytes, Readahead, ws);
  }

  /** Applies every window of the request, the tail last. */
  method AddWindows(r: ScheduleRequest) returns (ok: bool, priorities: Classes)
    requires WellFormed(r)
    ensures ok ==> Fits(r, Windows(r)) && priorities == ClassesOf(r, Windows(r))
    ensures !ok ==> exists w :: w in Windows(r) && PieceOf(r, w.last) > U32_MAX
  {
    ok, priorities := AddDemandWindows(r);
    if !ok { return; }
    if r.tailBytes > 0 {
      var tailSize := Min(r.tailBytes, r.fileSize);
      ghost var w := Window(r.fileSize - tailSize, r.fileSize - 1, MetadataTail);
      assert Windows(r) == DemandWindows(r) + [w];
      var tail := AddRange(priorities, r,
                           ByteRange(r.fileSize - tailSize, r.fileSize - 1), MetadataTail);
      if tail.Failure? {
        assert w in Windows(r);
        return false, priorities;
      }
      OneMoreWindow(r, DemandWindows(r), w);
      priorities := tail.value;
    } else {
      assert Windows(r) == DemandWindows(r);
    }
  }

  /** Builds the schedule of a request; throws exactly when `Schedule` does. */
  method BuildPieceSchedule(r: ScheduleRequest) returns (result: Result<seq<PiecePriority>>)
    ensures result == Schedule(r)
  {
    if r.pieceSize == 0 {
      return Failure(InvalidArgument);
    }
    if r.fileSize == 0 {
      return Success([]);
    }
    if r.demand.start > r.demand.end || r.demand.start >= r.fileSize {
      return Failure(InvalidArgument);
    }
    var ok, priorities := AddWindows(r);
    ghost var ws := Windows(r);
    if !ok {
      ghost var w :| w in ws && PieceOf(r, w.last) > U32_MAX;
      ghost var i :| 0 <= i < |ws| && ws[i] == w;
      return Failure(PieceIndexOverflow);
    }
    forall i | 0 <= i < |ws| ensures PieceOf(r, ws[i].last) <= U32_MAX {
      assert ws[i] in ws;
    }
    return Success(Flatten(priorities));
  }

  // ----- the blocking range of a reader -----

  /** The part of the response, from `position` on, that lies in the piece of `position`. */
  function BlockingDemandRange(response: ByteRange, position: U64, fileOffset: U64, pieceSize: U32)
    : (result: Result<ByteRange>)
  {
    if pieceSize == 0 then Failure(InvalidArgument)
    else if response.start > response.end || position < response.start || position > response.end
    then Failure(InvalidArgument)
    else
      var offsetInPiece := ((fileOffset % pieceSize) + (position % pieceSize)) % pieceSize;
      var remaining := pieceSize - offsetInPiece;
      Success(ByteRange(position, Min(SaturatingAdd(position, remaining - 1), response.end)))
  }

  /** The range stays in one piece of the torrent and cannot be made longer there. */
  lemma BlockingDemandRangeIsMaximal(response: ByteRange, position: U64, fileOffset: U64, pieceSize: U32)
    requires pieceSize > 0 && response.start <= position <= response.end
    ensures var range := BlockingDemandRange(response, position, fileOffset, pieceSize);
      && range.Success?
      && range.value.start == position <= range.value.end <= response.end
      && (forall b :: position <= b <= response.end ==>
          (b <= range.value.end <==>
           PieceNumber(fileOffset, b, pieceSize) == PieceNumber(fileOffset, position, pieceSize)))
  {
    var q := PieceNumber(fileOffset, position, pieceSize);
    var range := BlockingDemandRange(response, position, fileOffset, pieceSize).value;
    BlockingDemandRangeEnd(response, position, fileOffset, pieceSize);
    forall b | position <= b <= response.end
      ensures b <= range.end <==> PieceNumber(fileOffset, b, pieceSize) == q
    {
      SamePiece(fileOffset, position, b, pieceSize);
    }
  }

  lemma BlockingDemandRangeEnd(response: ByteRange, position: U64, fileOffset: U64, pieceSize: U32)
    requires pieceSize > 0 && response.start <= position <= response.end
    ensures var range := BlockingDemandRange(response, position, fileOffset, pieceSize);
      var q := PieceNumber(fileOffset, position, pieceSize);
      && range.Success? && range.value.start == position <= range.value.end
      && range.value.end == Min(pieceSize * q + pieceSize - 1 - fileOffset, response.end)
  {
    ModuloOfSum(fileOffset, position, pieceSize);
    DivisionBracket(fileOffset + position, pieceSize);
  }

  lemma SamePiece(o: int, a: int, b: int, d: int)
    requires 0 < d && a <= b
    ensures PieceNumber(o, b, d) == PieceNumber(o, a, d) <==> b <= d * PieceNumber(o, a, d) + d - 1 - o
  {
    var q := PieceNumber(o, a, d);
    DivisionBracket(o + a, d);
    DivisionBracket(o + b, d);
    if b <= d * q + d - 1 - o {
      DivisionUnique(o + b, d, q);
    }
  }

  lemma ModuloOfSum(a: int, b: int, d: int)
    requires 0 < d
    ensures (a % d + b % d) % d == (a + b) - d * ((a + b) / d)
  {
    var x := a % d + b % d;
    assert a + b == d * (a / d + b / d) + x;
    var q := (a + b) / d - (a / d + b / d);
    DivisionBracket(a + b, d);
    assert d * ((a + b) / d) == d * (a / d + b / d) + d * q;
    DivisionUnique(x, d, q);
    assert x % d == x - d * (x / d);
  }
}
