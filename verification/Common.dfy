/** Machine-integer bounds and the value types shared by the engine's components. */
module Common {
  const U32_MAX: int := 0xFFFF_FFFF
  const U64_MAX: int := 0xFFFF_FFFF_FFFF_FFFF

  type U32 = x: int | 0 <= x <= U32_MAX
  type U64 = x: int | 0 <= x <= U64_MAX

  type Byte = b: int | 0 <= b < 256

  /** The size of the blocks a piece is downloaded in. */
  const BLOCK_BYTES: int := 16384

  datatype Option<+T> = None | Some(value: T)

  /** A byte range with an inclusive end. */
  datatype ByteRange = ByteRange(start: U64, end: U64)

  function Min(a: int, b: int): int {
    if a < b then a else b
  }

  function Max(a: int, b: int): int {
    if a < b then b else a
  }

  /** 64-bit addition that sticks at the largest value. */
  function SaturatingAdd(left: U64, right: U64): (r: U64)
    ensures r == Min(left + right, U64_MAX)
  {
    if right > U64_MAX - left then U64_MAX else left + right
  }

  /** 64-bit addition that wraps around. */
  function WrappingAdd(left: U64, right: U64): U64 {
    if left + right <= U64_MAX then left + right else left + right - U64_MAX - 1
  }

  ghost predicate NoDuplicates<T>(s: seq<T>) {
    forall i, j :: 0 <= i < j < |s| ==> s[i] != s[j]
  }

  lemma NonEmptyHasMember<T>(s: seq<T>)
    ensures s != [] ==> exists x :: x in s
  {
    if s != [] {
      assert s[0] in s;
    }
  }

  /** The division facts used when byte positions are turned into piece numbers. */
  lemma DivisionBracket(x: int, d: int)
    requires 0 < d
    ensures d * (x / d) <= x < d * (x / d) + d
  {
  }

  lemma MultiplesApart(d: int, a: int, b: int)
    requires 0 < d
    ensures a < b ==> d * a + d <= d * b
    ensures a <= b ==> d * a <= d * b
  {
    if a < b {
      ProductNonNegative(d, b - a - 1);
      assert d * b == d * a + d + d * (b - a - 1);
    }
  }

  lemma ProductNonNegative(d: int, k: int)
    requires 0 <= d && 0 <= k
    ensures 0 <= d * k
  {
  }

  lemma DivisionUnique(x: int, d: int, q: int)
    requires 0 < d && d * q <= x < d * q + d
    ensures x / d == q
  {
    DivisionBracket(x, d);
    MultiplesApart(d, x / d, q);
    MultiplesApart(d, q, x / d);
  }

  lemma DivisionMonotone(x: int, y: int, d: int)
    requires 0 < d && x <= y
    ensures x / d <= y / d
  {
    DivisionBracket(x, d);
    DivisionBracket(y, d);
    MultiplesApart(d, y / d, x / d);
  }

  /** The piece that holds byte `b` of a file starting at `offset`. */
  function PieceNumber(offset: int, b: int, pieceSize: int): int
    requires pieceSize > 0
  {
    (offset + b) / pieceSize
  }

  lemma PieceNumberMonotone(offset: int, a: int, b: int, pieceSize: int)
    requires pieceSize > 0 && 0 <= offset + a && a <= b
    ensures 0 <= PieceNumber(offset, a, pieceSize) <= PieceNumber(offset, b, pieceSize)
  {
    DivisionMonotone(0, offset + a, pieceSize);
    DivisionMonotone(offset + a, offset + b, pieceSize);
  }

  /** A run of consecutive numbers hits every quotient between those of its two ends. */
  lemma QuotientHit(first: int, last: int, d: int, q: int) returns (b: int)
    requires 0 < d && first <= last && first / d <= q <= last / d
    ensures first <= b <= last && b / d == q
  {
    DivisionBracket(first, d);
    DivisionBracket(last, d);
    if q == first / d {
      b := first;
    } else {
      b := d * q;
      DivisionUnique(b, d, q);
      MultiplesApart(d, first / d, q);
      MultiplesApart(d, q, last / d);
    }
  }
}
