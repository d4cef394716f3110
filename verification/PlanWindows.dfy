/**
 Which pieces a plan wants, byte by byte: the demands of all readers, the windows that follow the
 focused demand, the tail of the file, and its start while the focus reads near the end.
 */
module PlanWindows {
  import opened Common
  import opened PieceScheduler
  import Sorting
  import opened DemandPlan
  import opened DemandPlanProperties

  const LAST_RANK: nat := 4

  // ----- one request -----

  /** Byte `b` of the file is asked for with this class. */
  predicate InClass(r: ScheduleRequest, b: int, cls: PriorityClass) {
    && 0 <= b < r.fileSize
    && match cls
       case Blocking => r.demand.start <= b <= r.demand.end
       case Critical => r.demand.end < b <= r.demand.end + r.criticalBytes
       case Playback => r.demand.end + r.criticalBytes < b <= r.demand.end + r.criticalBytes + r.playbackBytes
       case Readahead =>
         && r.demand.end + r.criticalBytes + r.playbackBytes < b
         && b <= r.demand.end + r.criticalBytes + r.playbackBytes + r.readaheadBytes
       case MetadataTail => r.fileSize - r.tailBytes <= b
  }

  /** Some window of the class holds the byte. */
  predicate InWindow(ws: seq<Window>, b: int, cls: PriorityClass) {
    exists i :: 0 <= i < |ws| && ws[i].cls == cls && ws[i].first <= b <= ws[i].last
  }

  lemma InWindowConcat(a: seq<Window>, c: seq<Window>, b: int, cls: PriorityClass)
    ensures InWindow(a + c, b, cls) <==> InWindow(a, b, cls) || InWindow(c, b, cls)
  {
    if InWindow(a, b, cls) {
      var i :| 0 <= i < |a| && a[i].cls == cls && a[i].first <= b <= a[i].last;
      assert (a + c)[i] == a[i];
    }
    if InWindow(c, b, cls) {
      var i :| 0 <= i < |c| && c[i].cls == cls && c[i].first <= b <= c[i].last;
      assert (a + c)[|a| + i] == c[i];
    }
  }

  lemma InSpan(r: ScheduleRequest, start: int, bytes: int, cls: PriorityClass, b: int, c: PriorityClass)
    ensures InWindow(Span(r, start, bytes, cls), b, c) <==> c == cls && start <= b < start + bytes && b < r.fileSize
  {
    if c == cls && start <= b < start + bytes && b < r.fileSize {
      assert Span(r, start, bytes, cls)[0].cls == cls;
    }
  }

  lemma InFirst(w: Window, b: int, cls: PriorityClass)
    ensures InWindow([w], b, cls) <==> w.cls == cls && w.first <= b <= w.last
  {
    assert [w][0] == w;
  }

  lemma InFour(x: seq<Window>, y: seq<Window>, z: seq<Window>, t: seq<Window>, b: int, cls: PriorityClass)
    ensures InWindow(x + y + z + t, b, cls) <==>
            InWindow(x, b, cls) || InWindow(y, b, cls) || InWindow(z, b, cls) || InWindow(t, b, cls)
  {
    InWindowConcat(x + y + z, t, b, cls);
    InWindowConcat(x + y, z, b, cls);
    InWindowConcat(x, y, b, cls);
  }

  lemma InDemandWindows(r: ScheduleRequest, b: int, cls: PriorityClass)
    requires WellFormed(r)
    ensures InWindow(DemandWindows(r), b, cls) <==> cls != MetadataTail && InClass(r, b, cls)
  {
    var critical := Min(r.demand.end + 1, r.fileSize);
    var playback := SpanEnd(r, critical, r.criticalBytes);
    var readahead := SpanEnd(r, playback, r.playbackBytes);
    var first := Window(r.demand.start, Min(r.demand.end, r.fileSize - 1), Blocking);
    InFour([first], Span(r, critical, r.criticalBytes, Critical), Span(r, playback, r.playbackBytes, Playback),
           Span(r, readahead, r.readaheadBytes, Readahead), b, cls);
    FollowingBytes(r, b, cls);
    InFirst(first, b, cls);
  }

  /** The three windows after the demand follow each other without gap or overlap. */
  lemma FollowingBytes(r: ScheduleRequest, b: int, cls: PriorityClass)
    requires WellFormed(r)
    ensures var critical := Min(r.demand.end + 1, r.fileSize);
      var playback := SpanEnd(r, critical, r.criticalBytes);
      var readahead := SpanEnd(r, playback, r.playbackBytes);
      && (InWindow(Span(r, critical, r.criticalBytes, Critical), b, cls) <==> cls == Critical && InClass(r, b, Critical))
      && (InWindow(Span(r, playback, r.playbackBytes, Playback), b, cls) <==> cls == Playback && InClass(r, b, Playback))
      && (InWindow(Span(r, readahead, r.readaheadBytes, Readahead), b, cls) <==> cls == Readahead && InClass(r, b, Readahead))
  {
    var critical := Min(r.demand.end + 1, r.fileSize);
    var playback := SpanEnd(r, critical, r.criticalBytes);
    InSpan(r, critical, r.criticalBytes, Critical, b, cls);
    InSpan(r, playback, r.playbackBytes, Playback, b, cls);
    InSpan(r, SpanEnd(r, playback, r.playbackBytes), r.readaheadBytes, Readahead, b, cls);
  }

  /** The windows of a request, in bytes. */
  lemma WindowsInBytes(r: ScheduleRequest, b: int, cls: PriorityClass)
    requires WellFormed(r)
    ensures InWindow(Windows(r), b, cls) <==> InClass(r, b, cls)
  {
    var tail := Min(r.tailBytes, r.fileSize);
    InWindowConcat(DemandWindows(r), Span(r, r.fileSize - tail, tail, MetadataTail), b, cls);
    InSpan(r, r.fileSize - tail, tail, MetadataTail, b, cls);
    InDemandWindows(r, b, cls);
  }

  /** Piece `p` holds a byte asked for with a class of rank at most `k`. */
  ghost predicate Reached(r: ScheduleRequest, p: int, k: nat)
    requires r.pieceSize > 0
  {
    exists b, c :: InClass(r, b, c) && c.Rank() <= k && PieceOf(r, b) == p
  }

  lemma ReachedByWindow(r: ScheduleRequest, p: int, k: nat)
    requires WellFormed(r)
    ensures Reached(r, p, k) <==> exists w :: w in Windows(r) && Touches(r, w, p) && w.cls.Rank() <= k
  {
    var ws := Windows(r);
    if Reached(r, p, k) {
      var b, c :| InClass(r, b, c) && c.Rank() <= k && PieceOf(r, b) == p;
      WindowsInBytes(r, b, c);
      var i :| 0 <= i < |ws| && ws[i].cls == c && ws[i].first <= b <= ws[i].last;
      assert ws[i] in ws && Touches(r, ws[i], p);
    }
    if w :| w in ws && Touches(r, w, p) && w.cls.Rank() <= k {
      var b :| w.first <= b <= w.last && PieceOf(r, b) == p;
      var i :| 0 <= i < |ws| && ws[i] == w;
      assert InWindow(ws, b, w.cls);
      WindowsInBytes(r, b, w.cls);
    }
  }

  /** The urgency of a piece in a schedule is the smallest rank of the bytes it holds. */
  lemma ScheduleUrgency(r: ScheduleRequest, p: U32, k: nat)
    requires Schedule(r).Success? && k < NO_URGENCY
    ensures r.pieceSize > 0
    ensures UrgencyIn(Schedule(r).value, p) <= k <==> Reached(r, p, k)
  {
    ScheduleIsExact(r);
    var s := Schedule(r).value;
    UrgencyHasWitness(s, p);
    if r.fileSize > 0 {
      ReachedByWindow(r, p, k);
      ListedUrgency(r, s, p, k);
    }
  }

  lemma ListedUrgency(r: ScheduleRequest, s: seq<PiecePriority>, p: U32, k: nat)
    requires WellFormed(r) && IsScheduleOf(r, s) && k < NO_URGENCY
    ensures UrgencyIn(s, p) <= k <==> exists w :: w in Windows(r) && Touches(r, w, p) && w.cls.Rank() <= k
  {
    var ws := Windows(r);
    UrgencyHasWitness(s, p);
    if UrgencyIn(s, p) <= k {
      var c: PriorityClass :| PiecePriority(p, c) in s && c.Rank() == UrgencyIn(s, p);
      assert MostUrgent(r, ws, p, c);
    }
    if w :| w in ws && Touches(r, w, p) && w.cls.Rank() <= k {
      var c := MostUrgentExists(r, ws, p, w);
      assert PiecePriority(p, c) in s;
    }
  }

  /** Among the windows that touch a piece one has the most urgent class. */
  lemma {:induction false} MostUrgentExists(r: ScheduleRequest, ws: seq<Window>, p: int, w: Window) returns (c: PriorityClass)
    requires r.pieceSize > 0 && w in ws && Touches(r, w, p)
    ensures MostUrgent(r, ws, p, c) && c.Rank() <= w.cls.Rank()
    decreases w.cls.Rank()
  {
    if v :| v in ws && Touches(r, v, p) && v.cls.Rank() < w.cls.Rank() {
      c := MostUrgentExists(r, ws, p, v);
    } else {
      c := w.cls;
    }
  }

  // ----- the focused demand -----

  /** Byte `b` of the demand's file lies in piece `p`. */
  predicate Holds(d: StreamDemand, b: int, p: int)
    requires d.pieceSize > 0
  {
    PieceNumber(d.fileOffset, b, d.pieceSize) == p
  }

  /** How far beyond the demand the critical window goes; a cold or prefetching focus has none. */
  function CriticalReach(d: StreamDemand, w: StreamWindow): int {
    if d.kind == Prefetch || d.cold then 0
    else if w.criticalBytes <= w.criticalPieceLimit * d.pieceSize then w.criticalBytes
    else w.criticalPieceLimit * d.pieceSize
  }

  /** The focus reads in the part of the file that holds its index. */
  predicate NearEnd(d: StreamDemand, w: StreamWindow) {
    w.tailBytes > 0 && (d.fileSize - d.range.start <= w.tailBytes || d.fileSize - d.range.start <= d.fileSize / 64)
  }

  /** Byte `b` is wanted with the class because of the focused demand `d`. */
  predicate ByteWanted(d: StreamDemand, w: StreamWindow, b: int, cls: PriorityClass) {
    var after, reach := b - d.range.end, CriticalReach(d, w);
    && 0 <= b < d.fileSize
    && match cls
       case Blocking => d.kind == Reader && d.range.start <= b <= d.range.end
       case Critical => (d.kind != Reader && d.range.start <= b <= d.range.end) || 0 < after <= reach
       case Playback =>
         || reach < after <= reach + w.playbackBytes
         || (NearEnd(d, w) && b < (reach + w.playbackBytes) % (U64_MAX + 1))
       case MetadataTail => d.fileSize - b <= w.tailBytes
       case Readahead => reach + w.playbackBytes < after <= reach + w.playbackBytes + w.readaheadBytes
  }

  /** The focus wants a byte of the piece with this class. */
  ghost predicate FocusWants(d: StreamDemand, w: StreamWindow, p: int, cls: PriorityClass)
    requires d.pieceSize > 0
  {
    exists b :: ByteWanted(d, w, b, cls) && Holds(d, b, p)
  }

  /** The window of the request reaches as far as the focus wants it to. */
  predicate Asks(r: ScheduleRequest, d: StreamDemand, w: StreamWindow) {
    && r.fileOffset == d.fileOffset && r.fileSize == d.fileSize && r.pieceSize == d.pieceSize && r.demand == d.range
    && r.criticalBytes == CriticalReach(d, w)
    && r.playbackBytes == w.playbackBytes && r.readaheadBytes == w.readaheadBytes && r.tailBytes == w.tailBytes
  }

  lemma FocusedAsks(d: StreamDemand, w: StreamWindow)
    ensures Asks(FocusedRequest(d, w), d, w)
    ensures CriticalBytes(d, w) == CriticalReach(d, w)
  {
  }

  /** The class a request's byte has in the plan: nobody blocks on a demand that is no reader's. */
  function ClassFor(d: StreamDemand, cls: PriorityClass): PriorityClass {
    if d.kind != Reader && cls == Blocking then Critical else cls
  }

  /** Byte `b` of the start of the file is wanted. */
  predicate HeadWanted(d: StreamDemand, w: StreamWindow, b: int) {
    0 <= b < d.fileSize && NearEnd(d, w) && b < (CriticalReach(d, w) + w.playbackBytes) % (U64_MAX + 1)
  }

  lemma RequestBytesWanted(r: ScheduleRequest, d: StreamDemand, w: StreamWindow, b: int, c: PriorityClass)
    requires Asks(r, d, w) && InClass(r, b, c)
    ensures ByteWanted(d, w, b, ClassFor(d, c))
  {
  }

  lemma WantedBytes(r: ScheduleRequest, d: StreamDemand, w: StreamWindow, b: int, cls: PriorityClass)
    requires Asks(r, d, w) && ByteWanted(d, w, b, cls)
    ensures InClass(r, b, cls) || (InClass(r, b, Blocking) && ClassFor(d, Blocking) == cls)
            || (cls == Playback && HeadWanted(d, w, b))
  {
  }

  /** A byte of the piece is asked for with a class that the plan ranks at most `k`. */
  ghost predicate Ahead(r: ScheduleRequest, d: StreamDemand, p: int, k: nat)
    requires r.pieceSize > 0
  {
    exists b, c :: InClass(r, b, c) && ClassFor(d, c).Rank() <= k && PieceOf(r, b) == p
  }

  ghost predicate Head(d: StreamDemand, w: StreamWindow, p: int)
    requires d.pieceSize > 0
  {
    exists b :: HeadWanted(d, w, b) && Holds(d, b, p)
  }

  /** The focus wants the piece with a class of rank at most `k`. */
  ghost predicate FocusUpTo(d: StreamDemand, w: StreamWindow, p: int, k: nat)
    requires d.pieceSize > 0
  {
    exists cls: PriorityClass :: cls.Rank() <= k && FocusWants(d, w, p, cls)
  }

  lemma AheadOrHeadWanted(r: ScheduleRequest, d: StreamDemand, w: StreamWindow, p: int, k: nat)
    requires Asks(r, d, w) && r.pieceSize > 0
    requires Ahead(r, d, p, k) || (k >= 2 && Head(d, w, p))
    ensures FocusUpTo(d, w, p, k)
  {
    if Ahead(r, d, p, k) {
      var b, c :| InClass(r, b, c) && ClassFor(d, c).Rank() <= k && PieceOf(r, b) == p;
      RequestBytesWanted(r, d, w, b, c);
      assert Holds(d, b, p);
      assert FocusWants(d, w, p, ClassFor(d, c));
    } else {
      var b :| HeadWanted(d, w, b) && Holds(d, b, p);
      assert ByteWanted(d, w, b, Playback);
      assert FocusWants(d, w, p, Playback);
    }
  }

  lemma WantedAheadOrHead(r: ScheduleRequest, d: StreamDemand, w: StreamWindow, p: int, k: nat)
    requires Asks(r, d, w) && r.pieceSize > 0 && FocusUpTo(d, w, p, k)
    ensures Ahead(r, d, p, k) || (k >= 2 && Head(d, w, p))
  {
    var cls: PriorityClass :| cls.Rank() <= k && FocusWants(d, w, p, cls);
    var b :| ByteWanted(d, w, b, cls) && Holds(d, b, p);
    WantedBytes(r, d, w, b, cls);
    assert PieceOf(r, b) == p;
    if cls == Playback && HeadWanted(d, w, b) {
      assert Head(d, w, p);
    } else if InClass(r, b, cls) && ClassFor(d, cls) == cls {
      assert Ahead(r, d, p, k);
    } else {
      assert InClass(r, b, Blocking) && ClassFor(d, Blocking).Rank() <= k;
    }
  }

  // ----- the urgencies of the schedules a plan is made of -----

  lemma {:induction false} ReclassUrgency(s: seq<PiecePriority>, p: U32)
    ensures UrgencyIn(Reclass(s, Blocking, Critical), p) == Max(1, UrgencyIn(s, p))
  {
    if s != [] {
      ReclassUrgency(s[1..], p);
      assert Reclass(s, Blocking, Critical)[1..] == Reclass(s[1..], Blocking, Critical);
    }
  }

  lemma {:induction false} PlaybackUrgency(s: seq<PiecePriority>, p: U32)
    ensures UrgencyIn(AllPlayback(s), p) == if UrgencyIn(s, p) < NO_URGENCY then 2 else NO_URGENCY
  {
    if s != [] {
      PlaybackUrgency(s[1..], p);
      UrgencyBounded(s[1..], p);
      assert AllPlayback(s)[1..] == AllPlayback(s[1..]);
    }
  }

  lemma ReachedIsAhead(r: ScheduleRequest, d: StreamDemand, p: int, k: nat)
    requires r.pieceSize > 0
    ensures Ahead(r, d, p, k) <==> Reached(r, p, k) && (d.kind == Reader || k >= 1)
  {
    if Ahead(r, d, p, k) {
      var b, c :| InClass(r, b, c) && ClassFor(d, c).Rank() <= k && PieceOf(r, b) == p;
      assert c.Rank() <= k;
    }
    if Reached(r, p, k) && (d.kind == Reader || k >= 1) {
      var b, c :| InClass(r, b, c) && c.Rank() <= k && PieceOf(r, b) == p;
      assert ClassFor(d, c).Rank() <= k;
    }
  }

  /** `s` gives every piece the urgency of the bytes it holds. */
  ghost predicate Measures(r: ScheduleRequest, s: seq<PiecePriority>, p: U32, k: nat) {
    r.pieceSize > 0 && (UrgencyIn(s, p) <= k <==> Reached(r, p, k))
  }

  lemma FocusUrgency(r: ScheduleRequest, d: StreamDemand, s: seq<PiecePriority>, p: U32, k: nat)
    requires Measures(r, s, p, k) && k < NO_URGENCY
    ensures UrgencyIn(FocusedSchedule(d, s), p) <= k <==> Ahead(r, d, p, k)
  {
    ReclassUrgency(s, p);
    ReachedIsAhead(r, d, p, k);
  }

  lemma HeadBytesAre(d: StreamDemand, w: StreamWindow)
    ensures HeadBytes(d, w) ==
      if NearEnd(d, w) then Min((CriticalReach(d, w) + w.playbackBytes) % (U64_MAX + 1), d.fileSize) else 0
  {
    FocusedAsks(d, w);
    WrapIsModulo(CriticalBytes(d, w), w.playbackBytes);
  }

  lemma WrapIsModulo(a: U64, b: U64)
    ensures WrappingAdd(a, b) == (a + b) % (U64_MAX + 1)
  {
  }

  /** A request for blocking bytes alone reaches exactly the pieces that hold one of them. */
  lemma BlockingReaches(d: StreamDemand, range: ByteRange, p: int, k: nat)
    requires d.pieceSize > 0
    ensures Reached(BlockingRequest(d, range), p, k) <==>
            exists b :: range.start <= b <= range.end && b < d.fileSize && Holds(d, b, p)
  {
    var r := BlockingRequest(d, range);
    if Reached(r, p, k) {
      var b, c :| InClass(r, b, c) && c.Rank() <= k && PieceOf(r, b) == p;
      assert range.start <= b <= range.end && Holds(d, b, p);
    }
    if b :| range.start <= b <= range.end && b < d.fileSize && Holds(d, b, p) {
      assert InClass(r, b, Blocking) && PieceOf(r, b) == p;
    }
  }

  /** The piece holds one of the first bytes of the file. */
  ghost predicate Starts(d: StreamDemand, bytes: int, p: int)
    requires d.pieceSize > 0
  {
    exists b :: 0 <= b < bytes && b < d.fileSize && Holds(d, b, p)
  }

  lemma HeadIsStart(d: StreamDemand, w: StreamWindow, p: int)
    requires d.pieceSize > 0
    ensures Starts(d, HeadBytes(d, w), p) <==> Head(d, w, p)
  {
    HeadBytesAre(d, w);
    HeadBytesWanted(d, w, HeadBytes(d, w), p);
  }

  lemma HeadBytesWanted(d: StreamDemand, w: StreamWindow, bytes: int, p: int)
    requires d.pieceSize > 0
    requires bytes == if NearEnd(d, w) then Min((CriticalReach(d, w) + w.playbackBytes) % (U64_MAX + 1), d.fileSize) else 0
    ensures Starts(d, bytes, p) <==> Head(d, w, p)
  {
    assert forall b :: HeadWanted(d, w, b) <==> 0 <= b < bytes && b < d.fileSize;
  }

  lemma StartReached(d: StreamDemand, bytes: U64, p: int)
    requires d.pieceSize > 0 && bytes > 0
    ensures Reached(BlockingRequest(d, ByteRange(0, bytes - 1)), p, LAST_RANK) <==> Starts(d, bytes, p)
  {
    BlockingReaches(d, ByteRange(0, bytes - 1), p, LAST_RANK);
  }

  lemma StartUrgency(d: StreamDemand, bytes: U64, p: U32, k: nat)
    requires StartSchedule(d, bytes).Success? && d.pieceSize > 0 && k < NO_URGENCY
    ensures UrgencyIn(StartSchedule(d, bytes).value, p) <= k <==> k >= 2 && Starts(d, bytes, p)
  {
    if bytes > 0 {
      var r := BlockingRequest(d, ByteRange(0, bytes - 1));
      AsPlayback(r, Schedule(r), p, k);
      StartReached(d, bytes, p);
    }
  }

  lemma HeadUrgency(d: StreamDemand, w: StreamWindow, p: U32, k: nat)
    requires HeadSchedule(d, w).Success? && d.pieceSize > 0 && k < NO_URGENCY
    ensures UrgencyIn(HeadSchedule(d, w).value, p) <= k <==> k >= 2 && Head(d, w, p)
  {
    StartUrgency(d, HeadBytes(d, w), p, k);
    HeadIsStart(d, w, p);
  }

  lemma AsPlayback(r: ScheduleRequest, s: Result<seq<PiecePriority>>, p: U32, k: nat)
    requires s == Schedule(r) && s.Success? && k < NO_URGENCY
    ensures r.pieceSize > 0
    ensures UrgencyIn(AllPlayback(s.value), p) <= k <==> k >= 2 && Reached(r, p, LAST_RANK)
  {
    ScheduleUrgency(r, p, LAST_RANK);
    PlaybackUrgency(s.value, p);
    UrgencyBounded(s.value, p);
  }

  /** A reader is blocked on a byte of the piece. */
  ghost predicate Blocks(o: StreamDemand, p: int) {
    && o.kind == Reader && o.pieceSize > 0
    && exists b :: o.range.start <= b <= o.range.end && b < o.fileSize && Holds(o, b, p)
  }

  lemma ReaderUrgency(o: StreamDemand, p: U32, k: nat)
    requires Schedule(BlockingRequest(o, o.range)).Success? && o.kind == Reader && k < NO_URGENCY
    ensures UrgencyIn(Schedule(BlockingRequest(o, o.range)).value, p) <= k <==> Blocks(o, p)
  {
    ScheduleUrgency(BlockingRequest(o, o.range), p, k);
    BlockingReaches(o, o.range, p, k);
  }

  lemma {:induction false} OthersUrgencyExact(readers: seq<StreamDemand>, p: U32, k: nat)
    requires ReaderSchedules(readers).Success? && k < NO_URGENCY
    requires forall o :: o in readers ==> o.kind == Reader
    ensures UrgencyInAll(ReaderSchedules(readers).value, p) <= k <==> exists o :: o in readers && Blocks(o, p)
  {
    if readers != [] {
      var first, rest := readers[0], readers[1..];
      assert readers == [first] + rest;
      OthersUrgencyExact(rest, p, k);
      ReaderUrgency(first, p, k);
      FirstAndRest(Schedule(BlockingRequest(first, first.range)).value, ReaderSchedules(rest).value, p);
      assert (exists o :: o in readers && Blocks(o, p)) <==> Blocks(first, p) || exists o :: o in rest && Blocks(o, p);
    }
  }

  lemma FirstAndRest(s: seq<PiecePriority>, ss: seq<seq<PiecePriority>>, p: U32)
    ensures UrgencyInAll([s] + ss, p) == Min(UrgencyIn(s, p), UrgencyInAll(ss, p))
  {
    assert ([s] + ss)[1..] == ss;
  }

  lemma {:induction false} OtherReadersAre(sorted: seq<StreamDemand>)
    ensures forall o :: o in OtherReaders(sorted) <==> o in sorted && o.kind == Reader
  {
    if sorted != [] {
      var last := |sorted| - 1;
      OtherReadersAre(sorted[..last]);
      assert sorted == sorted[..last] + [sorted[last]];
    }
  }

  // ----- the whole plan -----

  /** The piece is wanted with the class: by the focus `d`, or, to unblock it, by any reader. */
  ghost predicate Wanted(demands: seq<StreamDemand>, d: StreamDemand, w: StreamWindow, p: int, cls: PriorityClass)
    requires d.pieceSize > 0
  {
    FocusWants(d, w, p, cls) || (cls == Blocking && exists o :: o in demands && Blocks(o, p))
  }

  /** What makes a piece wanted with rank at most `k`, source by source. */
  ghost predicate WantedBy(before: seq<StreamDemand>, d: StreamDemand, w: StreamWindow, p: int, k: nat)
    requires d.pieceSize > 0
  {
    FocusUpTo(d, w, p, k) || exists o :: o in before && Blocks(o, p)
  }

  lemma FocusPart(d: StreamDemand, w: StreamWindow, p: U32, k: nat)
    requires Schedule(FocusedRequest(d, w)).Success? && HeadSchedule(d, w).Success? && k < NO_URGENCY
    ensures d.pieceSize > 0
    ensures var s := Schedule(FocusedRequest(d, w)).value;
      Min(UrgencyIn(FocusedSchedule(d, s), p), UrgencyIn(HeadSchedule(d, w).value, p)) <= k <==> FocusUpTo(d, w, p, k)
  {
    var r := FocusedRequest(d, w);
    FocusedAsks(d, w);
    ScheduleUrgency(r, p, k);
    HeadUrgency(d, w, p, k);
    FocusPartOf(r, d, w, Schedule(r).value, p, k);
  }

  lemma FocusPartOf(r: ScheduleRequest, d: StreamDemand, w: StreamWindow, s: seq<PiecePriority>, p: U32, k: nat)
    requires Asks(r, d, w) && Measures(r, s, p, k) && k < NO_URGENCY
    ensures UrgencyIn(FocusedSchedule(d, s), p) <= k || (k >= 2 && Head(d, w, p)) <==> FocusUpTo(d, w, p, k)
  {
    FocusUrgency(r, d, s, p, k);
    if Ahead(r, d, p, k) || (k >= 2 && Head(d, w, p)) {
      AheadOrHeadWanted(r, d, w, p, k);
    }
    if FocusUpTo(d, w, p, k) {
      WantedAheadOrHead(r, d, w, p, k);
    }
  }

  lemma PlanUrgency(sorted: seq<StreamDemand>, w: StreamWindow, p: U32, k: nat)
    requires sorted != [] && SortedPlan(sorted, w).Success? && k < NO_URGENCY
    ensures sorted[|sorted| - 1].pieceSize > 0
    ensures Urgency(Combined(FocusOf(sorted, w), HeadOf(sorted, w), OthersOf(sorted, w)), p) <= k <==>
            WantedBy(sorted[..|sorted| - 1], sorted[|sorted| - 1], w, p, k)
  {
    var d, before := sorted[|sorted| - 1], sorted[..|sorted| - 1];
    PlanShape(sorted, w);
    CombinedUrgency(FocusOf(sorted, w), HeadOf(sorted, w), OthersOf(sorted, w), p);
    FocusPart(d, w, p, k);
    OtherReadersAre(before);
    OthersUrgencyExact(OtherReaders(before), p, k);
    assert forall o :: o in before && Blocks(o, p) ==> o in OtherReaders(before);
  }

  /** The newest demand of all. */
  predicate Newest(demands: seq<StreamDemand>, d: StreamDemand) {
    d in demands && forall o :: o in demands ==> o == d || o.id < d.id
  }

  lemma NewestIsLast(demands: seq<StreamDemand>, d: StreamDemand)
    requires Newest(demands, d)
    ensures var sorted := SortById(demands);
      && sorted != [] && sorted[|sorted| - 1] == d
      && forall o :: o in demands <==> o == d || o in sorted[..|sorted| - 1]
  {
    SortKeepsElements(demands);
    var sorted := SortById(demands);
    var last := |sorted| - 1;
    SameMembers(sorted, demands);
    var i :| 0 <= i < |sorted| && sorted[i] == d;
    assert sorted[last] in sorted;
    assert i < last ==> !BY_ID(sorted[last], sorted[i]);
    assert sorted == sorted[..last] + [sorted[last]];
  }

  lemma SameMembers(a: seq<StreamDemand>, b: seq<StreamDemand>)
    requires multiset(a) == multiset(b)
    ensures forall o :: o in a <==> o in b
  {
    forall o ensures o in a <==> o in b {
      assert o in a <==> o in multiset(a);
      assert o in b <==> o in multiset(b);
    }
  }

  /** Some class of rank at most `k` applies to the piece. */
  ghost predicate WantedUpTo(demands: seq<StreamDemand>, d: StreamDemand, w: StreamWindow, p: int, k: nat)
    requires d.pieceSize > 0
  {
    exists c: PriorityClass :: c.Rank() <= k && Wanted(demands, d, w, p, c)
  }

  lemma FocusBlocks(d: StreamDemand, w: StreamWindow, p: int)
    requires d.pieceSize > 0
    ensures FocusWants(d, w, p, Blocking) <==> Blocks(d, p)
  {
    if FocusWants(d, w, p, Blocking) {
      var b :| ByteWanted(d, w, b, Blocking) && Holds(d, b, p);
    }
    if Blocks(d, p) {
      var b :| d.range.start <= b <= d.range.end && b < d.fileSize && Holds(d, b, p);
      assert ByteWanted(d, w, b, Blocking);
    }
  }

  lemma WantedBySome(demands: seq<StreamDemand>, before: seq<StreamDemand>, d: StreamDemand, w: StreamWindow, p: int, k: nat)
    requires d.pieceSize > 0 && forall o :: o in demands <==> o == d || o in before
    ensures WantedBy(before, d, w, p, k) <==> WantedUpTo(demands, d, w, p, k)
  {
    FocusBlocks(d, w, p);
    if FocusUpTo(d, w, p, k) {
      var c: PriorityClass :| c.Rank() <= k && FocusWants(d, w, p, c);
      assert Wanted(demands, d, w, p, c);
    }
    if o :| o in before && Blocks(o, p) {
      assert Wanted(demands, d, w, p, Blocking) && Blocking.Rank() <= k;
    }
    if WantedUpTo(demands, d, w, p, k) {
      var c: PriorityClass :| c.Rank() <= k && Wanted(demands, d, w, p, c);
      assert FocusWants(d, w, p, c) ==> FocusUpTo(d, w, p, k);
    }
  }

  /** The most urgent class with which the piece is wanted. */
  ghost predicate WantedMost(demands: seq<StreamDemand>, d: StreamDemand, w: StreamWindow, p: int, cls: PriorityClass)
    requires d.pieceSize > 0
  {
    && Wanted(demands, d, w, p, cls)
    && forall c: PriorityClass :: Wanted(demands, d, w, p, c) ==> cls.Rank() <= c.Rank()
  }

  lemma MostIsLeastRank(demands: seq<StreamDemand>, d: StreamDemand, w: StreamWindow, p: int, cls: PriorityClass)
    requires d.pieceSize > 0
    ensures WantedMost(demands, d, w, p, cls) <==>
            WantedUpTo(demands, d, w, p, cls.Rank()) && (cls == Blocking || !WantedUpTo(demands, d, w, p, cls.Rank() - 1))
  {
    if WantedUpTo(demands, d, w, p, cls.Rank()) && (cls == Blocking || !WantedUpTo(demands, d, w, p, cls.Rank() - 1)) {
      var c: PriorityClass :| c.Rank() <= cls.Rank() && Wanted(demands, d, w, p, c);
      assert cls != Blocking && c != cls ==> c.Rank() <= cls.Rank() - 1;
      assert c == cls;
    }
  }

  lemma UrgencyWanted(demands: seq<StreamDemand>, d: StreamDemand, w: StreamWindow, p: U32, k: nat)
    requires Newest(demands, d) && PlanFor(demands, w).Success? && k < NO_URGENCY
    ensures d.pieceSize > 0 && SortById(demands) != [] && SortedPlan(SortById(demands), w).Success?
    ensures var sorted := SortById(demands);
      Urgency(Combined(FocusOf(sorted, w), HeadOf(sorted, w), OthersOf(sorted, w)), p) <= k
      <==> WantedUpTo(demands, d, w, p, k)
  {
    NewestIsLast(demands, d);
    var sorted := SortById(demands);
    PlanUrgency(sorted, w, p, k);
    WantedBySome(demands, sorted[..|sorted| - 1], d, w, p, k);
  }

  lemma ListedIffUrgency(m: Classes, p: U32, cls: PriorityClass)
    ensures PiecePriority(p, cls) in Flatten(m) <==>
            Urgency(m, p) <= cls.Rank() && (cls == Blocking || !(Urgency(m, p) <= cls.Rank() - 1))
  {
  }

  /**
   The plan lists a piece with a class exactly when the class is the most urgent one with which
   a reader or the focus wants one of its bytes.
   */
  lemma PlanIsExact(demands: seq<StreamDemand>, d: StreamDemand, w: StreamWindow, p: U32, cls: PriorityClass)
    requires Newest(demands, d) && PlanFor(demands, w).Success?
    ensures d.pieceSize > 0
    ensures PiecePriority(p, cls) in PlanFor(demands, w).value.pieces <==> WantedMost(demands, d, w, p, cls)
  {
    var sorted := SortById(demands);
    UrgencyWanted(demands, d, w, p, cls.Rank());
    if cls != Blocking {
      UrgencyWanted(demands, d, w, p, cls.Rank() - 1);
    }
    PlanParts(sorted, w);
    ListedIffUrgency(Combined(FocusOf(sorted, w), HeadOf(sorted, w), OthersOf(sorted, w)), p, cls);
    MostIsLeastRank(demands, d, w, p, cls);
  }

  /** A plan is cold exactly when it prefetches or its newest demand is marked cold. */
  lemma ColdExactly(demands: seq<StreamDemand>, d: StreamDemand, w: StreamWindow)
    requires Newest(demands, d) && PlanFor(demands, w).Success?
    ensures PlanFor(demands, w).value.cold <==> d.kind == Prefetch || d.cold
  {
    NewestIsLast(demands, d);
    PlanShape(SortById(demands), w);
  }

  /** Somebody blocks on the piece. */
  ghost predicate Blocked(demands: seq<StreamDemand>, p: int) {
    exists o :: o in demands && Blocks(o, p)
  }

  /** A byte of a focus that is no reader, or one shortly after a warm focus. */
  predicate CriticalByte(d: StreamDemand, w: StreamWindow, b: int) {
    && 0 <= b < d.fileSize
    && (|| (d.kind != Reader && d.range.start <= b <= d.range.end)
        || (&& d.kind != Prefetch && !d.cold
            && 0 < b - d.range.end <= w.criticalBytes && b - d.range.end <= w.criticalPieceLimit * d.pieceSize))
  }

  lemma CriticalByteWanted(d: StreamDemand, w: StreamWindow, b: int)
    ensures ByteWanted(d, w, b, Critical) <==> CriticalByte(d, w, b)
  {
  }

  /**
   The critical pieces: those nobody blocks on that hold one of the first bytes after a warm focus,
   as many as the window and the limit of pieces allow, or a byte of a focus that is no reader.
   */
  lemma CriticalPiecesAre(demands: seq<StreamDemand>, d: StreamDemand, w: StreamWindow, p: U32)
    requires Newest(demands, d) && PlanFor(demands, w).Success?
    ensures d.pieceSize > 0
    ensures PiecePriority(p, Critical) in PlanFor(demands, w).value.pieces <==>
      && !Blocked(demands, p)
      && exists b :: CriticalByte(d, w, b) && Holds(d, b, p)
  {
    PlanIsExact(demands, d, w, p, Critical);
    FocusBlocks(d, w, p);
    assert Wanted(demands, d, w, p, Blocking) <==> Blocked(demands, p);
    CriticalWanted(demands, d, w, p);
    forall b ensures ByteWanted(d, w, b, Critical) <==> CriticalByte(d, w, b) {
      CriticalByteWanted(d, w, b);
    }
  }

  lemma CriticalWanted(demands: seq<StreamDemand>, d: StreamDemand, w: StreamWindow, p: int)
    requires d.pieceSize > 0
    ensures WantedMost(demands, d, w, p, Critical) <==>
            FocusWants(d, w, p, Critical) && !Wanted(demands, d, w, p, Blocking)
  {
  }

  /** A plan with a cold or prefetching focus has no critical window: a reader's plan has no critical piece. */
  lemma ColdHasNoWindow(demands: seq<StreamDemand>, d: StreamDemand, w: StreamWindow, p: U32)
    requires Newest(demands, d) && PlanFor(demands, w).Success? && PlanFor(demands, w).value.cold && d.kind == Reader
    ensures PiecePriority(p, Critical) !in PlanFor(demands, w).value.pieces
  {
    ColdExactly(demands, d, w);
    CriticalPiecesAre(demands, d, w, p);
  }

  /** The blocking pieces are those a reader blocks on. */
  lemma BlockingPiecesAre(demands: seq<StreamDemand>, d: StreamDemand, w: StreamWindow, p: U32)
    requires Newest(demands, d) && PlanFor(demands, w).Success?
    ensures PiecePriority(p, Blocking) in PlanFor(demands, w).value.pieces <==> Blocked(demands, p)
  {
    PlanIsExact(demands, d, w, p, Blocking);
    FocusBlocks(d, w, p);
  }

  // ----- when there is no plan -----

  predicate Malformed(o: StreamDemand) {
    o.pieceSize == 0 || (o.fileSize > 0 && (o.range.start > o.range.end || o.range.start >= o.fileSize))
  }

  lemma OverflowReached(r: ScheduleRequest)
    requires WellFormed(r)
    ensures Overflows(r) <==> exists p :: p > U32_MAX && Reached(r, p, LAST_RANK)
  {
    if Overflows(r) {
      var w, p :| w in Windows(r) && Touches(r, w, p) && p > U32_MAX;
      ReachedByWindow(r, p, LAST_RANK);
    }
    if p :| p > U32_MAX && Reached(r, p, LAST_RANK) {
      ReachedByWindow(r, p, LAST_RANK);
      var w :| w in Windows(r) && Touches(r, w, p) && w.cls.Rank() <= LAST_RANK;
      assert Overflows(r);
    }
  }

  /** A request is refused when it is malformed or asks for a piece without a 32-bit number. */
  lemma RefusedSchedule(r: ScheduleRequest)
    ensures Schedule(r).Failure? <==>
      || r.pieceSize == 0 || (r.fileSize > 0 && !WellFormed(r))
      || exists p :: p > U32_MAX && Reached(r, p, LAST_RANK)
  {
    ScheduleIsExact(r);
    if WellFormed(r) {
      OverflowReached(r);
    }
  }

  ghost predicate TooFar(o: StreamDemand) {
    exists p :: p > U32_MAX && Blocks(o, p)
  }

  lemma RefusedReader(o: StreamDemand)
    requires o.kind == Reader
    ensures Schedule(BlockingRequest(o, o.range)).Failure? <==> Malformed(o) || TooFar(o)
  {
    RefusedSchedule(BlockingRequest(o, o.range));
    if o.pieceSize > 0 {
      forall p ensures Reached(BlockingRequest(o, o.range), p, LAST_RANK) <==> Blocks(o, p) {
        BlockingReaches(o, o.range, p, LAST_RANK);
      }
    }
  }

  lemma {:induction false} RefusedReaders(readers: seq<StreamDemand>)
    requires forall o :: o in readers ==> o.kind == Reader
    ensures ReaderSchedules(readers).Failure? <==> exists o :: o in readers && (Malformed(o) || TooFar(o))
  {
    if readers != [] {
      assert readers == [readers[0]] + readers[1..];
      RefusedReaders(readers[1..]);
      RefusedReader(readers[0]);
    }
  }

  lemma RefusedStart(d: StreamDemand, bytes: U64)
    requires d.pieceSize > 0 && bytes <= d.fileSize
    ensures StartSchedule(d, bytes).Failure? <==> exists p :: p > U32_MAX && Starts(d, bytes, p)
  {
    if bytes > 0 {
      var r := BlockingRequest(d, ByteRange(0, bytes - 1));
      RefusedSchedule(r);
      forall p ensures Reached(r, p, LAST_RANK) <==> Starts(d, bytes, p) {
        StartReached(d, bytes, p);
      }
    }
  }

  lemma RefusedHead(d: StreamDemand, w: StreamWindow)
    requires d.pieceSize > 0
    ensures HeadSchedule(d, w).Failure? <==> exists p :: p > U32_MAX && Head(d, w, p)
  {
    HeadBytesAre(d, w);
    RefusedStart(d, HeadBytes(d, w));
    forall p ensures Starts(d, HeadBytes(d, w), p) <==> Head(d, w, p) {
      HeadIsStart(d, w, p);
    }
  }

  /** The focus wants a piece without a 32-bit number. */
  ghost predicate FocusTooFar(d: StreamDemand, w: StreamWindow) {
    d.pieceSize > 0 && exists p :: p > U32_MAX && FocusUpTo(d, w, p, LAST_RANK)
  }

  lemma RefusedFocus(d: StreamDemand, w: StreamWindow)
    ensures Schedule(FocusedRequest(d, w)).Failure? || HeadSchedule(d, w).Failure? <==> Malformed(d) || FocusTooFar(d, w)
  {
    var r, k := FocusedRequest(d, w), LAST_RANK;
    FocusedAsks(d, w);
    RefusedSchedule(r);
    if d.pieceSize > 0 {
      RefusedHead(d, w);
      forall p ensures FocusUpTo(d, w, p, k) <==> Reached(r, p, k) || Head(d, w, p) {
        ReachedIsAhead(r, d, p, k);
        if Reached(r, p, k) || Head(d, w, p) {
          AheadOrHeadWanted(r, d, w, p, k);
        }
        if FocusUpTo(d, w, p, k) {
          WantedAheadOrHead(r, d, w, p, k);
        }
      }
    }
  }

  /** A plan is refused exactly for a malformed focus or reader, or a wanted piece beyond 32 bits. */
  lemma PlanRefusedIff(demands: seq<StreamDemand>, d: StreamDemand, w: StreamWindow)
    requires Newest(demands, d)
    ensures PlanFor(demands, w).Failure? <==>
      || Malformed(d) || FocusTooFar(d, w)
      || exists o :: o in demands && o.kind == Reader && (Malformed(o) || TooFar(o))
  {
    NewestIsLast(demands, d);
    var sorted := SortById(demands);
    var before := sorted[..|sorted| - 1];
    RefusedFocus(d, w);
    OtherReadersAre(before);
    RefusedReaders(OtherReaders(before));
    FocusBlocksTooFar(d, w);
  }

  lemma FocusBlocksTooFar(d: StreamDemand, w: StreamWindow)
    ensures TooFar(d) ==> FocusTooFar(d, w)
  {
    if TooFar(d) {
      var p :| p > U32_MAX && Blocks(d, p);
      FocusBlocks(d, w, p);
      assert FocusWants(d, w, p, Blocking);
      assert FocusUpTo(d, w, p, LAST_RANK);
    }
  }
}
