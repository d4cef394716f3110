/** How much of a streamed file is ready, counted over the pieces that overlap it. */
module Progress {
  import opened Common

  /** A file laid over a torrent's pieces. */
  datatype Layout = Layout(fileOffset: U64, fileSize: U64, pieceSize: U32, total: U64)

  predicate Usable(f: Layout) {
    f.fileSize > 0 && f.pieceSize > 0 && f.fileOffset + f.fileSize <= f.total
  }

  function PieceOf(f: Layout, x: int): int
    requires f.pieceSize > 0
  {
    (f.fileOffset + x) / f.pieceSize
  }

  /** The last piece is cut off where the torrent ends. */
  function PieceBytes(f: Layout, piece: int): int {
    Min(f.pieceSize, f.total - piece * f.pieceSize)
  }

  predicate PieceReady(ready: seq<bool>, seeding: bool, piece: int) {
    seeding || (0 <= piece < |ready| && ready[piece])
  }

  /** Byte `x` of the file exists in the torrent and lies in a ready piece. */
  predicate ByteReady(f: Layout, ready: seq<bool>, seeding: bool, x: int)
    requires f.pieceSize > 0
  {
    f.fileOffset + x < f.total && PieceReady(ready, seeding, PieceOf(f, x))
  }

  /** The number of ready bytes among the first `n` of the file. */
  function ReadyBytes(f: Layout, ready: seq<bool>, seeding: bool, n: nat): (count: nat)
    requires f.pieceSize > 0
    ensures count <= n
  {
    if n == 0 then 0
    else ReadyBytes(f, ready, seeding, n - 1) + if ByteReady(f, ready, seeding, n - 1) then 1 else 0
  }

  ghost predicate AllReady(f: Layout, ready: seq<bool>, seeding: bool, n: nat)
    requires f.pieceSize > 0
  {
    forall x :: 0 <= x < n ==> ByteReady(f, ready, seeding, x)
  }

  /** `n` is the length of the longest prefix of the file that is ready. */
  ghost predicate LongestReady(f: Layout, ready: seq<bool>, seeding: bool, n: nat)
    requires f.pieceSize > 0
  {
    n <= f.fileSize && AllReady(f, ready, seeding, n) && (n < f.fileSize ==> !ByteReady(f, ready, seeding, n))
  }

  lemma {:induction false} ReadyStretch(f: Layout, ready: seq<bool>, seeding: bool, a: nat, b: nat, state: bool)
    requires f.pieceSize > 0 && a <= b && forall x :: a <= x < b ==> ByteReady(f, ready, seeding, x) == state
    ensures ReadyBytes(f, ready, seeding, b) == ReadyBytes(f, ready, seeding, a) + if state then b - a else 0
    decreases b
  {
    if a < b {
      assert ByteReady(f, ready, seeding, b - 1) == state;
      ReadyStretch(f, ready, seeding, a, b - 1, state);
    }
  }

  lemma {:induction false} CountIsFullIff(f: Layout, ready: seq<bool>, seeding: bool, n: nat)
    requires f.pieceSize > 0
    ensures ReadyBytes(f, ready, seeding, n) == n <==> AllReady(f, ready, seeding, n)
  {
    if n > 0 {
      CountIsFullIff(f, ready, seeding, n - 1);
      if AllReady(f, ready, seeding, n) {
        assert ByteReady(f, ready, seeding, n - 1);
      }
    }
  }

  /** Everything in the file is ready exactly when every piece that overlaps it is. */
  lemma AllReadyIff(f: Layout, ready: seq<bool>, seeding: bool)
    requires Usable(f)
    ensures AllReady(f, ready, seeding, f.fileSize) <==>
      forall p :: PieceOf(f, 0) <= p <= PieceOf(f, f.fileSize - 1) ==> PieceReady(ready, seeding, p)
  {
    var first, last := PieceOf(f, 0), PieceOf(f, f.fileSize - 1);
    if AllReady(f, ready, seeding, f.fileSize) {
      forall p | first <= p <= last ensures PieceReady(ready, seeding, p) {
        var x := SomeByteOf(f, p);
        assert ByteReady(f, ready, seeding, x);
      }
    }
    if forall p :: first <= p <= last ==> PieceReady(ready, seeding, p) {
      forall x | 0 <= x < f.fileSize ensures ByteReady(f, ready, seeding, x) {
        DivisionMonotone(f.fileOffset, f.fileOffset + x, f.pieceSize);
        DivisionMonotone(f.fileOffset + x, f.fileOffset + f.fileSize - 1, f.pieceSize);
        assert first <= PieceOf(f, x) <= last;
      }
    }
  }

  lemma SomeByteOf(f: Layout, p: int) returns (x: nat)
    requires Usable(f) && PieceOf(f, 0) <= p <= PieceOf(f, f.fileSize - 1)
    ensures x < f.fileSize && PieceOf(f, x) == p
  {
    var b := QuotientHit(f.fileOffset, f.fileOffset + f.fileSize - 1, f.pieceSize, p);
    x := b - f.fileOffset;
  }

  /** Where a piece between the first and the last of a run of bytes starts and ends. */
  lemma StartBounds(first: int, last: int, q: int, p: int)
    requires 0 < q && 0 <= first <= last && first / q <= p <= last / q
    ensures 0 <= p * q <= last && first < p * q + q && (p + 1) * q == p * q + q
  {
    DivisionBracket(first, q);
    DivisionBracket(last, q);
    MultiplesApart(q, first / q, p);
    MultiplesApart(q, p, last / q);
    DivisionMonotone(0, first, q);
    ProductNonNegative(q, p);
  }

  lemma InPiece(start: int, q: int, p: int, y: int)
    requires 0 < q && start == p * q && start <= y < start + q
    ensures y / q == p
  {
    DivisionUnique(y, q, p);
  }

  /** The file's bytes before piece `p` starts. */
  function Boundary(f: Layout, p: int): int {
    Max(0, Min(f.fileSize, p * f.pieceSize - f.fileOffset))
  }

  /** The bytes between two boundaries are those of one piece, as many as its overlap with the file. */
  lemma OverlapIsPiece(f: Layout, p: int)
    requires Usable(f) && PieceOf(f, 0) <= p <= PieceOf(f, f.fileSize - 1)
    ensures var fileEnd, start := f.fileOffset + f.fileSize, p * f.pieceSize;
      var a, b := Max(f.fileOffset, start), Min(fileEnd, start + PieceBytes(f, p));
      && 0 <= start && a < b && a == f.fileOffset + Boundary(f, p) && b == f.fileOffset + Boundary(f, p + 1)
      && forall x :: Boundary(f, p) <= x < Boundary(f, p + 1) ==> PieceOf(f, x) == p
  {
    var q, fileEnd, start := f.pieceSize, f.fileOffset + f.fileSize, p * f.pieceSize;
    StartBounds(f.fileOffset, fileEnd - 1, q, p);
    forall x | Boundary(f, p) <= x < Boundary(f, p + 1) ensures PieceOf(f, x) == p {
      InPiece(start, q, p, f.fileOffset + x);
    }
  }

  /** The number of pieces of the torrent. */
  function NumPieces(f: Layout): int
    requires f.pieceSize > 0
  {
    (f.total + f.pieceSize - 1) / f.pieceSize
  }

  /** The file has bytes and 64-bit positions, and its last piece is one of the torrent's. */
  predicate Measurable(f: Layout) {
    && f.fileSize > 0 && f.pieceSize > 0 && f.fileOffset + f.fileSize <= U64_MAX
    && PieceOf(f, f.fileSize - 1) < NumPieces(f)
  }

  /** How much of the file the torrent holds. */
  function Held(f: Layout): nat {
    Max(0, Min(f.fileSize, f.total - f.fileOffset))
  }

  function Clipped(f: Layout): Layout {
    f.(fileSize := Held(f))
  }

  /** A file that ends beyond the torrent still ends in the torrent's last piece. */
  lemma ClippedPieces(f: Layout)
    requires Measurable(f)
    ensures Held(f) > 0 ==> Usable(Clipped(f)) && PieceOf(f, Held(f) - 1) == PieceOf(f, f.fileSize - 1)
    ensures Held(f) == 0 ==> PieceOf(f, 0) == PieceOf(f, f.fileSize - 1) == NumPieces(f) - 1
  {
    var q, last := f.pieceSize, f.fileOffset + f.fileSize - 1;
    DivisionMonotone(f.fileOffset, last, q);
    DivisionShiftOne(f.total, q);
    if f.total <= last {
      DivisionMonotone(f.total - 1, last, q);
      if f.total <= f.fileOffset {
        DivisionMonotone(f.total - 1, f.fileOffset, q);
      }
    }
  }

  lemma DivisionShiftOne(total: int, q: int)
    requires 0 < q && 0 <= total
    ensures (total + q - 1) / q == (total - 1) / q + 1
  {
    DivisionBracket(total - 1, q);
    DivisionUnique(total + q - 1, q, (total - 1) / q + 1);
  }

  /** The overlap of a piece with the file, as far as the torrent goes. */
  function Overlap(f: Layout, piece: int): int {
    var start := piece * f.pieceSize;
    Min(f.fileOffset + f.fileSize, start + PieceBytes(f, piece)) - Max(f.fileOffset, start)
  }

  lemma OverlapIsStretch(f: Layout, piece: int)
    requires Measurable(f) && PieceOf(f, 0) <= piece <= PieceOf(f, f.fileSize - 1)
    ensures Held(f) > 0 ==> Overlap(f, piece) == Boundary(Clipped(f), piece + 1) - Boundary(Clipped(f), piece) > 0
    ensures Held(f) == 0 ==> Overlap(f, piece) <= 0
  {
    ClippedPieces(f);
    if Held(f) > 0 {
      OverlapIsPiece(Clipped(f), piece);
    }
  }

  /** What has been counted when the loop comes to `piece`. */
  ghost predicate CountedTo(f: Layout, ready: seq<bool>, seeding: bool, piece: int, unbroken: bool, contiguous: int, verified: int)
    requires f.pieceSize > 0
  {
    var b := if Held(f) > 0 then Boundary(Clipped(f), piece) else 0;
    && 0 <= contiguous <= b <= Held(f) && verified == ReadyBytes(f, ready, seeding, b)
    && AllReady(f, ready, seeding, contiguous)
    && (Held(f) > 0 && unbroken ==> contiguous == b)
    && (Held(f) > 0 && !unbroken ==> contiguous < b && !ByteReady(f, ready, seeding, contiguous))
  }

  lemma CountNext(f: Layout, ready: seq<bool>, seeding: bool, piece: int, unbroken: bool, contiguous: int, verified: int)
    requires Measurable(f) && PieceOf(f, 0) <= piece <= PieceOf(f, f.fileSize - 1)
    requires CountedTo(f, ready, seeding, piece, unbroken, contiguous, verified)
    ensures var isReady, overlap := PieceReady(ready, seeding, piece), Max(0, Overlap(f, piece));
      CountedTo(f, ready, seeding, piece + 1, unbroken && isReady,
                if isReady && unbroken then contiguous + overlap else contiguous,
                if isReady then verified + overlap else verified)
  {
    OverlapIsStretch(f, piece);
    if Held(f) > 0 {
      ClippedPieces(f);
      OverlapIsPiece(Clipped(f), piece);
      var a, b, isReady := Boundary(Clipped(f), piece), Boundary(Clipped(f), piece + 1), PieceReady(ready, seeding, piece);
      forall x | a <= x < b ensures ByteReady(f, ready, seeding, x) == isReady {
        assert PieceOf(Clipped(f), x) == piece;
      }
      ReadyStretch(f, ready, seeding, a, b, isReady);
    }
  }

  /** After the last piece the counts are those of the whole file. */
  lemma CountEnds(f: Layout, ready: seq<bool>, seeding: bool, unbroken: bool, contiguous: int, verified: int)
    requires Measurable(f) && CountedTo(f, ready, seeding, PieceOf(f, f.fileSize - 1) + 1, unbroken, contiguous, verified)
    ensures verified == ReadyBytes(f, ready, seeding, f.fileSize)
    ensures contiguous >= 0 && LongestReady(f, ready, seeding, contiguous)
  {
    ClippedPieces(f);
    if Held(f) > 0 {
      LastBoundary(Clipped(f));
    }
    ReadyStretch(f, ready, seeding, Held(f), f.fileSize, false);
  }

  /** Everything is verified exactly when the file lies in the torrent and every piece of it is ready. */
  lemma FullIff(f: Layout, ready: seq<bool>, seeding: bool)
    requires Measurable(f)
    ensures ReadyBytes(f, ready, seeding, f.fileSize) == f.fileSize <==>
      && f.fileOffset + f.fileSize <= f.total
      && forall p :: PieceOf(f, 0) <= p <= PieceOf(f, f.fileSize - 1) ==> PieceReady(ready, seeding, p)
  {
    CountIsFullIff(f, ready, seeding, f.fileSize);
    if f.fileOffset + f.fileSize <= f.total {
      AllReadyIff(f, ready, seeding);
    } else {
      assert !ByteReady(f, ready, seeding, f.fileSize - 1);
    }
  }

  /** The totals reported for a stream: the longest ready prefix and all ready bytes. */
  method ProgressFor(f: Layout, ready: seq<bool>, seeding: bool) returns (contiguous: nat, verified: nat)
    ensures !Measurable(f) ==> contiguous == 0 && verified == 0
    ensures contiguous <= verified <= f.fileSize
    ensures Measurable(f) ==> verified == ReadyBytes(f, ready, seeding, f.fileSize)
    ensures Measurable(f) ==> LongestReady(f, ready, seeding, contiguous)
    ensures Measurable(f) ==>
      (verified == f.fileSize <==>
       && f.fileOffset + f.fileSize <= f.total
       && forall p :: PieceOf(f, 0) <= p <= PieceOf(f, f.fileSize - 1) ==> PieceReady(ready, seeding, p))
  {
    if f.fileSize == 0 || f.pieceSize == 0 || f.fileSize > U64_MAX - f.fileOffset {
      return 0, 0;
    }
    var last := (f.fileOffset + f.fileSize - 1) / f.pieceSize;
    if last >= NumPieces(f) {
      return 0, 0;
    }
    contiguous, verified := CountPieces(f, ready, seeding);
    FullIff(f, ready, seeding);
    PrefixCounts(f, ready, seeding, contiguous);
  }

  method CountPieces(f: Layout, ready: seq<bool>, seeding: bool) returns (contiguous: nat, verified: nat)
    requires Measurable(f)
    ensures verified == ReadyBytes(f, ready, seeding, f.fileSize)
    ensures LongestReady(f, ready, seeding, contiguous)
  {
    var piece, last := f.fileOffset / f.pieceSize, (f.fileOffset + f.fileSize - 1) / f.pieceSize;
    var unbroken, prefix, total: int := true, 0, 0;
    StartOfCount(f, ready, seeding);
    while piece <= last
      invariant PieceOf(f, 0) <= piece <= last + 1
      invariant CountedTo(f, ready, seeding, piece, unbroken, prefix, total)
      decreases last - piece
    {
      CountNext(f, ready, seeding, piece, unbroken, prefix, total);
      if PieceReady(ready, seeding, piece) {
        var overlap := Overlap(f, piece);
        if overlap > 0 {
          total := total + overlap;
          if unbroken {
            prefix := prefix + overlap;
          }
        }
      } else {
        unbroken := false;
      }
      piece := piece + 1;
    }
    CountEnds(f, ready, seeding, unbroken, prefix, total);
    contiguous, verified := prefix, total;
  }

  lemma StartOfCount(f: Layout, ready: seq<bool>, seeding: bool)
    requires Measurable(f)
    ensures PieceOf(f, 0) <= PieceOf(f, f.fileSize - 1) && CountedTo(f, ready, seeding, PieceOf(f, 0), true, 0, 0)
  {
    DivisionMonotone(f.fileOffset, f.fileOffset + f.fileSize - 1, f.pieceSize);
    ClippedPieces(f);
    if Held(f) > 0 {
      FirstBoundary(Clipped(f));
    }
  }

  lemma FirstBoundary(f: Layout)
    requires Usable(f)
    ensures Boundary(f, PieceOf(f, 0)) == 0
  {
    DivisionBracket(f.fileOffset, f.pieceSize);
  }

  lemma LastBoundary(f: Layout)
    requires Usable(f)
    ensures Boundary(f, PieceOf(f, f.fileSize - 1) + 1) == f.fileSize
  {
    DivisionBracket(f.fileOffset + f.fileSize - 1, f.pieceSize);
    assert (PieceOf(f, f.fileSize - 1) + 1) * f.pieceSize == PieceOf(f, f.fileSize - 1) * f.pieceSize + f.pieceSize;
  }

  lemma {:induction false} ReadyBytesGrow(f: Layout, ready: seq<bool>, seeding: bool, a: nat, b: nat)
    requires f.pieceSize > 0 && a <= b
    ensures ReadyBytes(f, ready, seeding, a) <= ReadyBytes(f, ready, seeding, b)
    decreases b
  {
    if a < b {
      ReadyBytesGrow(f, ready, seeding, a, b - 1);
    }
  }

  lemma PrefixCounts(f: Layout, ready: seq<bool>, seeding: bool, n: nat)
    requires f.pieceSize > 0 && n <= f.fileSize && AllReady(f, ready, seeding, n)
    ensures n <= ReadyBytes(f, ready, seeding, f.fileSize)
  {
    CountIsFullIff(f, ready, seeding, n);
    ReadyBytesGrow(f, ready, seeding, n, f.fileSize);
  }
}
