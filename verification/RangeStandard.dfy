/**
 What sections 14.1.1 and 14.1.2 of RFC 9110 assign to one range specification, and exactly where the
 server's reading differs from it.
 */
module RangeStandard {
  import opened Common
  import opened ByteRanges

  datatype Meaning =
    | Invalid                          // not a range specification, or one with its ends reversed
    | Unsatisfied
    | Nothing                          // a satisfiable suffix of an empty resource
    | Selects(start: nat, end: nat)

  /** Numbers have no upper limit; a suffix is satisfiable unless its length is zero. */
  function Assigned(first: string, last: string, size: nat): Meaning {
    if first == [] then
      if !Digits(last) then Invalid
      else if Value(last) == 0 then Unsatisfied
      else if size == 0 then Nothing
      else Selects(size - Min(Value(last), size), size - 1)
    else if !Digits(first) || (last != [] && !Digits(last)) then Invalid
    else if last != [] && Value(last) < Value(first) then Invalid
    else if Value(first) >= size then Unsatisfied
    else Selects(Value(first), if last == [] then size - 1 else Min(Value(last), size - 1))
  }

  /** The server's answer is the one the meaning calls for. */
  predicate Answers(r: RangeResult, m: Meaning) {
    match m
    case Invalid => r == RangeResult(Malformed, None)
    case Unsatisfied => r == RangeResult(Unsatisfiable, None)
    case Nothing => r == RangeResult(Full, None)
    case Selects(start, end) =>
      r.status == Partial && r.range.Some? && r.range.value.start == start && r.range.value.end == end
  }

  predicate Overlong(s: string) {
    Digits(s) && Value(s) > U64_MAX
  }

  /** Both bounds are there and the last one is smaller. */
  predicate Reversed(first: string, last: string) {
    Digits(first) && Digits(last) && Value(last) < Value(first)
  }

  /** The specifications the server reads differently from the standard. */
  predicate Deviates(first: string, last: string, size: U64) {
    if first == [] then Overlong(last) || (size == 0 && Digits(last) && Value(last) > 0)
    else
      && Digits(first) && (last == [] || Digits(last))
      && (Overlong(first) || Overlong(last) <==> !Reversed(first, last))
  }

  /** For all bounds and sizes: the server follows the standard exactly outside those. */
  lemma AnswersIff(first: string, last: string, size: U64)
    requires Bound(first) && Bound(last)
    ensures Answers(ParseBounds(first, last, size), Assigned(first, last, size)) <==> !Deviates(first, last, size)
  {
    assert [] + last + [] == last;
    TrimOf([], last, []);
  }

  /** ... and so for every header with one specification, however it is spaced. */
  lemma HeaderAnswersIff(gaps: seq<string>, first: string, last: string, size: U64)
    requires |gaps| == 5 && (forall i :: 0 <= i < 5 ==> Blanks(gaps[i])) && Bound(first) && Bound(last)
    ensures Answers(ParseRangeHeader(RangeHeader(gaps, first, last), size), Assigned(first, last, size)) <==>
      !Deviates(first, last, size)
  {
    HeaderMeaning(gaps, first, last, size);
    AnswersIff(first, last, size);
  }

  /** A reversed range: invalid by the standard, unsatisfiable to the server, whatever the size. */
  lemma ReversedExample(size: U64)
    ensures ParseRangeHeader("bytes=9-3", size).status == Unsatisfiable && Assigned("9", "3", size) == Invalid
  {
    assert Print(9) == "9" && Print(3) == "3";
    PrintParses(9);
    PrintParses(3);
    HeaderMeaning(["", "", "", "", ""], "9", "3", size);
    NoGaps("9", "3");
    assert PREFIX + "9" + "-" + "3" == "bytes=9-3";
  }

  /** A last position beyond 64 bits: the rest of the resource by the standard, malformed to the server. */
  lemma OverlongExample(size: U64)
    requires size > 0
    ensures var last := Print(U64_MAX + 1);
      && ParseRangeHeader("bytes=0-" + last, size).status == Malformed
      && Assigned("0", last, size) == Selects(0, size - 1)
  {
    var last := Print(U64_MAX + 1);
    PrintIsDigits(U64_MAX + 1);
    assert Print(0) == "0";
    PrintParses(0);
    assert Bound(last) && Value(last) == U64_MAX + 1;
    HeaderMeaning(["", "", "", "", ""], "0", last, size);
    NoGaps("0", last);
    ZeroHeader(last);
  }

  lemma ZeroHeader(last: string)
    ensures PREFIX + "0" + "-" + last == "bytes=0-" + last
  {
    assert PREFIX + "0" + "-" == "bytes=0-";
  }

  /** A suffix of an empty resource: satisfiable by the standard, unsatisfiable to the server. */
  lemma EmptySuffixExample()
    ensures ParseRangeHeader("bytes=-5", 0).status == Unsatisfiable && Assigned("", "5", 0) == Nothing
  {
    assert Print(5) == "5";
    PrintParses(5);
    HeaderMeaning(["", "", "", "", ""], "", "5", 0);
    NoGaps("", "5");
    assert PREFIX + "" + "-" + "5" == "bytes=-5";
    assert [] + "5" + [] == "5";
    TrimOf([], "5", []);
  }
}
