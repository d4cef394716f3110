/**
 Byte ranges of HTTP requests, in the sense of sections 14.1.2 and 14.2 of RFC 9110, as the
 loopback server reads them: one range, a reversed range is unsatisfiable, a number that does
 not fit in 64 bits is malformed.
 */
module ByteRanges {
  import opened Common

  datatype RangeStatus = Full | Partial | Malformed | Unsatisfiable | MultipleRangesUnsupported

  datatype RangeResult = RangeResult(status: RangeStatus, range: Option<ByteRange>)

  // ----- blanks -----

  predicate Blank(c: char) {
    c == ' ' || c == '\t'
  }

  predicate Blanks(s: string) {
    forall i :: 0 <= i < |s| ==> Blank(s[i])
  }

  /** Neither end is blank. */
  predicate Tight(s: string) {
    s != [] ==> !Blank(s[0]) && !Blank(s[|s| - 1])
  }

  function TrimFront(s: string): string {
    if s != [] && Blank(s[0]) then TrimFront(s[1..]) else s
  }

  function TrimBack(s: string): string {
    if s != [] && Blank(s[|s| - 1]) then TrimBack(s[..|s| - 1]) else s
  }

  function Trim(s: string): string {
    TrimBack(TrimFront(s))
  }

  method TrimView(value: string) returns (r: string)
    ensures r == Trim(value)
  {
    r := value;
    while r != [] && Blank(r[0])
      invariant TrimFront(r) == TrimFront(value)
      decreases |r|
    {
      r := r[1..];
    }
    while r != [] && Blank(r[|r| - 1])
      invariant TrimBack(r) == Trim(value)
      decreases |r|
    {
      r := r[..|r| - 1];
    }
  }

  lemma {:induction false} TrimFrontOf(blanks: string, s: string)
    requires Blanks(blanks) && (s != [] ==> !Blank(s[0]))
    ensures TrimFront(blanks + s) == s
  {
    if blanks != [] {
      assert (blanks + s)[1..] == blanks[1..] + s;
      TrimFrontOf(blanks[1..], s);
    } else {
      assert blanks + s == s;
    }
  }

  lemma {:induction false} TrimBackOf(s: string, blanks: string)
    requires Blanks(blanks) && (s != [] ==> !Blank(s[|s| - 1]))
    ensures TrimBack(s + blanks) == s
  {
    if blanks != [] {
      var last := |blanks| - 1;
      assert (s + blanks)[..|s + blanks| - 1] == s + blanks[..last];
      TrimBackOf(s, blanks[..last]);
    } else {
      assert s + blanks == s;
    }
  }

  /** Trimming finds what stands between the blanks. */
  lemma TrimOf(before: string, s: string, after: string)
    requires Blanks(before) && Blanks(after) && Tight(s)
    ensures Trim(before + s + after) == s
  {
    if s == [] {
      assert before + s + after == (before + after) + s;
      TrimFrontOf(before + after, s);
    } else {
      assert before + s + after == before + (s + after);
      TrimFrontOf(before, s + after);
      TrimBackOf(s, after);
    }
  }

  lemma Cons(s: string, front: string, back: string)
    requires s != [] && s[1..] == front + back
    ensures s == ([s[0]] + front) + back
  {
    assert s == [s[0]] + s[1..];
  }

  lemma {:induction false} FrontBlanks(s: string) returns (before: string)
    ensures Blanks(before) && s == before + TrimFront(s) && (TrimFront(s) != [] ==> !Blank(TrimFront(s)[0]))
  {
    if s != [] && Blank(s[0]) {
      var rest := FrontBlanks(s[1..]);
      before := [s[0]] + rest;
      Cons(s, rest, TrimFront(s[1..]));
    } else {
      before := [];
    }
  }

  lemma {:induction false} BackBlanks(s: string) returns (after: string)
    ensures Blanks(after) && s == TrimBack(s) + after
    ensures TrimBack(s) != [] ==> !Blank(TrimBack(s)[|TrimBack(s)| - 1]) && TrimBack(s)[0] == s[0]
  {
    if s != [] && Blank(s[|s| - 1]) {
      var rest := BackBlanks(s[..|s| - 1]);
      after := rest + [s[|s| - 1]];
      assert s == s[..|s| - 1] + [s[|s| - 1]];
    } else {
      after := [];
    }
  }

  /** ... and every string is its trimmed form between blanks. */
  lemma TrimSplits(s: string) returns (before: string, after: string)
    ensures Blanks(before) && Blanks(after) && Tight(Trim(s)) && s == before + Trim(s) + after
  {
    before := FrontBlanks(s);
    after := BackBlanks(TrimFront(s));
  }

  // ----- numbers -----

  predicate Digit(c: char) {
    '0' <= c <= '9'
  }

  predicate Digits(s: string) {
    s != [] && forall i :: 0 <= i < |s| ==> Digit(s[i])
  }

  function Value(s: string): nat
    requires forall i :: 0 <= i < |s| ==> Digit(s[i])
  {
    if s == [] then 0
    else
      var c := s[|s| - 1];
      assert Digit(c);
      10 * Value(s[..|s| - 1]) + (c - '0') as nat
  }

  /** Only digits, and only what fits in 64 bits. */
  function ParseUnsigned(s: string): Option<U64> {
    if Digits(s) && Value(s) <= U64_MAX then Some(Value(s)) else None
  }

  function DigitChar(n: nat): char
    requires n < 10
  {
    '0' + n as char
  }

  function Print(n: nat): string {
    if n < 10 then [DigitChar(n)] else Print(n / 10) + [DigitChar(n % 10)]
  }

  lemma {:induction false} PrintIsDigits(n: nat)
    ensures Digits(Print(n)) && Value(Print(n)) == n
  {
    if n < 10 {
      assert Print(n)[..0] == [];
      assert Value([]) == 0;
    } else {
      PrintIsDigits(n / 10);
      assert Print(n)[..|Print(n)| - 1] == Print(n / 10);
    }
  }

  lemma PrintParses(n: U64)
    ensures ParseUnsigned(Print(n)) == Some(n) && Tight(Print(n)) && ',' !in Print(n) && '-' !in Print(n)
  {
    PrintIsDigits(n);
  }

  // ----- one range header -----

  /** The position of the first `c`, or the length. */
  function Find(s: string, c: char): (k: nat)
    ensures k <= |s| && (k < |s| ==> s[k] == c) && forall i :: 0 <= i < k ==> s[i] != c
  {
    if s == [] || s[0] == c then 0 else 1 + Find(s[1..], c)
  }

  function ParseSuffix(text: string, size: U64): RangeResult {
    var length := ParseUnsigned(Trim(text));
    if length.None? then RangeResult(Malformed, None)
    else if length.value == 0 || size == 0 then RangeResult(Unsatisfiable, None)
    else RangeResult(Partial, Some(ByteRange(size - Min(length.value, size), size - 1)))
  }

  /** The two numbers of a range, either of which may be left out. */
  function ParseBounds(first: string, last: string, size: U64): RangeResult {
    if first == [] then ParseSuffix(last, size)
    else
      var start, end := ParseUnsigned(first), ParseUnsigned(last);
      if start.None? || (last != [] && end.None?) then RangeResult(Malformed, None)
      else if size == 0 || start.value >= size then RangeResult(Unsatisfiable, None)
      else if last == [] then RangeResult(Partial, Some(ByteRange(start.value, size - 1)))
      else if start.value > end.value then RangeResult(Unsatisfiable, None)
      else RangeResult(Partial, Some(ByteRange(start.value, Min(end.value, size - 1))))
  }

  function ParseSpecification(spec: string, size: U64): RangeResult {
    if spec == [] then RangeResult(Malformed, None)
    else if ',' in spec then RangeResult(MultipleRangesUnsupported, None)
    else
      var k := Find(spec, '-');
      if k == |spec| || '-' in spec[k + 1..] then RangeResult(Malformed, None)
      else ParseBounds(Trim(spec[..k]), Trim(spec[k + 1..]), size)
  }

  const PREFIX: string := "bytes="

  function ParseRangeHeader(header: string, size: U64): RangeResult {
    var h := Trim(header);
    if h == [] then RangeResult(Full, if size == 0 then None else Some(ByteRange(0, size - 1)))
    else if !(PREFIX <= h) then RangeResult(Malformed, None)
    else ParseSpecification(Trim(h[|PREFIX|..]), size)
  }

  /** `end - start + 1` in 64-bit arithmetic. */
  function Length(r: ByteRange): U64 {
    (r.end - r.start + 1) % (U64_MAX + 1)
  }

  /** Every header: what is served lies in the resource, and its length does not wrap. */
  lemma ServedRangeIsInside(header: string, size: U64)
    ensures var r := ParseRangeHeader(header, size);
      && (r.range.Some? <==> r.status == Partial || (r.status == Full && size > 0))
      && (r.range.Some? ==> r.range.value.start <= r.range.value.end < size)
      && (r.range.Some? ==> Length(r.range.value) == r.range.value.end - r.range.value.start + 1 <= size)
      && (r.status == Full && size > 0 ==> r.range == Some(ByteRange(0, size - 1)))
  {
    var r := ParseRangeHeader(header, size);
    if r.range.Some? {
      LengthFits(r.range.value, size);
    }
  }

  lemma LengthFits(r: ByteRange, size: U64)
    requires r.start <= r.end < size
    ensures Length(r) == r.end - r.start + 1
  {
  }

  // ----- what a header means -----

  /** A header with one range specification, with blanks wherever they are tolerated. */
  function RangeHeader(gaps: seq<string>, first: string, last: string): string
    requires |gaps| == 5
  {
    gaps[0] + (PREFIX + (gaps[1] + (first + (gaps[2] + ("-" + (gaps[3] + (last + gaps[4])))))))
  }

  predicate Bound(s: string) {
    Tight(s) && ',' !in s && '-' !in s
  }

  lemma FindAfter(s: string, c: char, t: string)
    requires c !in s
    ensures Find(s + [c] + t, c) == |s|
  {
    var all := s + [c] + t;
    assert all[|s|] == c;
    assert forall i :: 0 <= i < |s| ==> all[i] == s[i];
  }

  /** The specification between the prefix and the trailing blanks. */
  lemma SpecificationMeaning(first: string, gap: string, after: string, last: string, size: U64)
    requires Bound(first) && Bound(last) && Blanks(gap) && Blanks(after)
    requires first == [] ==> gap == []
    requires last == [] ==> after == []
    ensures ParseSpecification(first + gap + "-" + (after + last), size) == ParseBounds(first, last, size)
    ensures Tight(first + gap + "-" + (after + last))
  {
    var spec := first + gap + "-" + (after + last);
    var k := |first + gap|;
    FindAfter(first + gap, '-', after + last);
    assert spec == (first + gap) + ['-'] + (after + last);
    assert spec[..k] == first + gap && spec[k + 1..] == after + last;
    assert first + gap == [] + first + gap && after + last == after + last + [];
    TrimOf([], first, gap);
    TrimOf(after, last, []);
  }

  /** The prefix and the blanks around the specification are stripped. */
  lemma StrippedHeader(before: string, lead: string, spec: string, after: string, size: U64)
    requires Blanks(before) && Blanks(lead) && Blanks(after) && Tight(spec) && spec != []
    ensures ParseRangeHeader(before + (PREFIX + (lead + spec)) + after, size) == ParseSpecification(spec, size)
  {
    var h := PREFIX + (lead + spec);
    assert h[|h| - 1] == spec[|spec| - 1];
    TrimOf(before, h, after);
    assert h[|PREFIX|..] == lead + spec;
    assert lead + spec == lead + spec + [];
    TrimOf(lead, spec, []);
  }

  lemma BlanksJoin(a: string, b: string)
    requires Blanks(a) && Blanks(b)
    ensures Blanks(a + b)
  {
  }

  /** Blanks next to a missing bound count with those outside. */
  lemma RegroupedHeader(gaps: seq<string>, first: string, last: string)
    requires |gaps| == 5
    ensures var gap := if first == [] then [] else gaps[2];
      var lead := if first == [] then gaps[1] + gaps[2] else gaps[1];
      var after := if last == [] then [] else gaps[3];
      var tail := if last == [] then gaps[3] + gaps[4] else gaps[4];
      RangeHeader(gaps, first, last) == gaps[0] + (PREFIX + (lead + (first + gap + "-" + (after + last)))) + tail
  {
  }

  /**
   However it is spaced, a header with one specification means what its two bounds say.
   */
  lemma HeaderMeaning(gaps: seq<string>, first: string, last: string, size: U64)
    requires |gaps| == 5 && (forall i :: 0 <= i < 5 ==> Blanks(gaps[i])) && Bound(first) && Bound(last)
    ensures ParseRangeHeader(RangeHeader(gaps, first, last), size) == ParseBounds(first, last, size)
  {
    var gap := if first == [] then [] else gaps[2];
    var lead := if first == [] then gaps[1] + gaps[2] else gaps[1];
    var after := if last == [] then [] else gaps[3];
    var tail := if last == [] then gaps[3] + gaps[4] else gaps[4];
    BlanksJoin(gaps[1], gaps[2]);
    BlanksJoin(gaps[3], gaps[4]);
    SpecificationMeaning(first, gap, after, last, size);
    RegroupedHeader(gaps, first, last);
    StrippedHeader(gaps[0], lead, first + gap + "-" + (after + last), tail, size);
  }

  predicate Selective(r: RangeResult) {
    r.status == Partial || r.status == Unsatisfiable
  }

  lemma SpecificationOf(header: string, size: U64) returns (g0: string, g1: string, spec: string, g2: string, g3: string)
    requires Selective(ParseRangeHeader(header, size))
    ensures Selective(ParseSpecification(spec, size))
    ensures Blanks(g0) && Blanks(g1) && Blanks(g2) && Blanks(g3)
    ensures header == g0 + (PREFIX + (g1 + spec + g2)) + g3
  {
    var h := Trim(header);
    var body := h[|PREFIX|..];
    spec := Trim(body);
    g0, g3 := TrimSplits(header);
    g1, g2 := TrimSplits(body);
    assert h == PREFIX + body;
  }

  lemma SpecificationParts(spec: string, size: U64)
    returns (f0: string, first: string, f1: string, l0: string, last: string, l1: string)
    requires Selective(ParseSpecification(spec, size))
    ensures Blanks(f0) && Blanks(f1) && Blanks(l0) && Blanks(l1) && Bound(first) && Bound(last)
    ensures spec == (f0 + first + f1) + "-" + (l0 + last + l1)
  {
    var front, back := BoundsOf(spec, size);
    f0, f1 := TrimSplits(front);
    l0, l1 := TrimSplits(back);
    first, last := Trim(front), Trim(back);
    PartsAreBounds(front, f0, f1);
    PartsAreBounds(back, l0, l1);
  }

  /** Conversely, only such headers select part of a resource or are unsatisfiable. */
  lemma OnlySuchHeaders(header: string, size: U64) returns (gaps: seq<string>, first: string, last: string)
    requires Selective(ParseRangeHeader(header, size))
    ensures |gaps| == 5 && (forall i :: 0 <= i < 5 ==> Blanks(gaps[i])) && Bound(first) && Bound(last)
    ensures header == RangeHeader(gaps, first, last)
  {
    var g0, g1, spec, g2, g3 := SpecificationOf(header, size);
    var f0, f1, l0, l1: string;
    f0, first, f1, l0, last, l1 := SpecificationParts(spec, size);
    gaps := Gaps(g0, g1, f0, f1, l0, l1, g2, g3);
    Regroup(g0, g1, f0, first, f1, l0, last, l1, g2, g3);
  }

  lemma Gaps(g0: string, g1: string, f0: string, f1: string, l0: string, l1: string, g2: string, g3: string)
    returns (gaps: seq<string>)
    requires Blanks(g0) && Blanks(g1) && Blanks(f0) && Blanks(f1) && Blanks(l0) && Blanks(l1) && Blanks(g2) && Blanks(g3)
    ensures gaps == [g0, g1 + f0, f1, l0, l1 + g2 + g3] && forall i :: 0 <= i < 5 ==> Blanks(gaps[i])
  {
    BlanksJoin(g1, f0);
    BlanksJoin(l1, g2);
    BlanksJoin(l1 + g2, g3);
    gaps := [g0, g1 + f0, f1, l0, l1 + g2 + g3];
  }

  lemma BoundsOf(spec: string, size: U64) returns (front: string, back: string)
    requires Selective(ParseSpecification(spec, size))
    ensures spec == front + "-" + back && ',' !in front && '-' !in front && ',' !in back && '-' !in back
  {
    var k := Find(spec, '-');
    front, back := spec[..k], spec[k + 1..];
    assert spec == front + "-" + back;
  }

  lemma PartsAreBounds(s: string, before: string, after: string)
    requires s == before + Trim(s) + after && Tight(Trim(s)) && ',' !in s && '-' !in s
    ensures Bound(Trim(s))
  {
    var middle := Trim(s);
    assert forall i :: 0 <= i < |middle| ==> s[|before| + i] == middle[i];
  }

  lemma Regroup(g0: string, g1: string, f0: string, first: string, f1: string, l0: string, last: string, l1: string,
                g1': string, g4: string)
    ensures g0 + (PREFIX + (g1 + ((f0 + first + f1) + "-" + (l0 + last + l1)) + g1')) + g4 ==
      RangeHeader([g0, g1 + f0, f1, l0, l1 + g1' + g4], first, last)
  {
  }

  /** A served range, printed back as a request, is served again. */
  lemma RangeRoundTrip(r: ByteRange, size: U64)
    requires r.start <= r.end < size
    ensures ParseRangeHeader(PREFIX + Print(r.start) + "-" + Print(r.end), size) == RangeResult(Partial, Some(r))
  {
    PrintParses(r.start);
    PrintParses(r.end);
    HeaderMeaning(["", "", "", "", ""], Print(r.start), Print(r.end), size);
    NoGaps(Print(r.start), Print(r.end));
    assert Print(r.start) != [] && Print(r.end) != [];
  }

  lemma NoGaps(first: string, last: string)
    ensures RangeHeader(["", "", "", "", ""], first, last) == PREFIX + first + "-" + last
  {
  }

  // ----- the response -----

  datatype HttpMethod = Get | Head

  datatype Header = Header(name: string, value: string)

  datatype StreamResponse = StreamResponse(status: nat, bodyRange: Option<ByteRange>, includeBody: bool, headers: seq<Header>)

  function ErrorHeaders(status: nat, size: U64): seq<Header> {
    (if status == 416 then [Header("Content-Range", "bytes */" + Print(size))] else []) +
    [Header("Content-Length", "0")]
  }

  /** The status line, the range to send, and the headers that depend on it. */
  function BuildStreamResponse(verb: HttpMethod, rangeHeader: Option<string>, size: U64): StreamResponse {
    var r := ParseRangeHeader(if rangeHeader.Some? then rangeHeader.value else "", size);
    if r.status == Malformed then StreamResponse(400, None, false, ErrorHeaders(400, 0))
    else if r.status == Unsatisfiable || r.status == MultipleRangesUnsupported
    then StreamResponse(416, None, false, ErrorHeaders(416, size))
    else
      var length := if r.range.Some? then Length(r.range.value) else 0;
      var status := if r.status == Partial then 206 else 200;
      StreamResponse(status, r.range, verb == Get && length > 0,
        [Header("Content-Length", Print(length))] +
        (if status == 206 && r.range.Some?
         then [Header("Content-Range",
                      "bytes " + Print(r.range.value.start) + "-" + Print(r.range.value.end) + "/" + Print(size))]
         else []))
  }

  function Printed(r: ByteRange): string {
    PREFIX + Print(r.start) + "-" + Print(r.end)
  }

  /** The headers of a response that has something to send. */
  lemma BodyHeaders(verb: HttpMethod, rangeHeader: Option<string>, size: U64)
    requires BuildStreamResponse(verb, rangeHeader, size).bodyRange.Some?
    ensures var r := BuildStreamResponse(verb, rangeHeader, size);
      && r.bodyRange.value.start <= r.bodyRange.value.end < size
      && (r.status == 200 || r.status == 206) && (r.includeBody <==> verb == Get)
      && Header("Content-Length", Print(r.bodyRange.value.end - r.bodyRange.value.start + 1)) in r.headers
      && (r.status == 206 <==> exists h :: h in r.headers && h.name == "Content-Range")
  {
    var r := BuildStreamResponse(verb, rangeHeader, size);
    ServedRangeIsInside(if rangeHeader.Some? then rangeHeader.value else "", size);
    assert r.headers[0] == Header("Content-Length", Print(r.bodyRange.value.end - r.bodyRange.value.start + 1));
    if r.status == 206 {
      assert r.headers[1].name == "Content-Range";
    }
  }

  /** Nothing to send: an error, or an empty resource. */
  lemma EmptyHeaders(verb: HttpMethod, rangeHeader: Option<string>, size: U64)
    requires BuildStreamResponse(verb, rangeHeader, size).bodyRange.None?
    ensures var r := BuildStreamResponse(verb, rangeHeader, size);
      && (r.status == 400 || r.status == 416 || (r.status == 200 && size == 0)) && !r.includeBody
      && Header("Content-Length", "0") in r.headers
      && (r.status == 416 ==> Header("Content-Range", "bytes */" + Print(size)) in r.headers)
  {
    var r := BuildStreamResponse(verb, rangeHeader, size);
    ServedRangeIsInside(if rangeHeader.Some? then rangeHeader.value else "", size);
    assert Print(0) == "0";
    assert r.headers[|r.headers| - 1] == Header("Content-Length", "0");
    if r.status == 416 {
      assert r.headers[0] == Header("Content-Range", "bytes */" + Print(size));
    }
  }

  /**
   For every request: the printed Content-Length is the number of bytes of the body range, a body
   is sent exactly for a GET with something to send, and the body range, asked for again, is
   the one that is served.
   */
  lemma ResponseIsConsistent(verb: HttpMethod, rangeHeader: Option<string>, size: U64)
    ensures var r := BuildStreamResponse(verb, rangeHeader, size);
      && (r.includeBody <==> verb == Get && r.bodyRange.Some?)
      && (r.bodyRange.Some? <==> r.status == 206 || (r.status == 200 && size > 0))
      && (r.bodyRange.Some? ==>
            && r.bodyRange.value.start <= r.bodyRange.value.end < size
            && Header("Content-Length", Print(r.bodyRange.value.end - r.bodyRange.value.start + 1)) in r.headers
            && BuildStreamResponse(verb, Some(Printed(r.bodyRange.value)), size).bodyRange == r.bodyRange)
      && (r.bodyRange.None? ==> Header("Content-Length", "0") in r.headers)
  {
    var r := BuildStreamResponse(verb, rangeHeader, size);
    ServedRangeIsInside(if rangeHeader.Some? then rangeHeader.value else "", size);
    if r.bodyRange.Some? {
      BodyHeaders(verb, rangeHeader, size);
      ServedAgain(verb, r.bodyRange.value, size);
    } else {
      EmptyHeaders(verb, rangeHeader, size);
    }
  }

  lemma ServedAgain(verb: HttpMethod, r: ByteRange, size: U64)
    requires r.start <= r.end < size
    ensures BuildStreamResponse(verb, Some(Printed(r)), size).bodyRange == Some(r)
  {
    RangeRoundTrip(r, size);
  }

  function HeaderText(rangeHeader: Option<string>): string {
    if rangeHeader.Some? then rangeHeader.value else ""
  }

  /** Only a blank header asks for everything. */
  lemma FullIffBlank(header: string, size: U64)
    ensures ParseRangeHeader(header, size).status == Full <==> Blanks(header)
  {
    var before, after := TrimSplits(header);
    if Blanks(header) {
      assert header == header + [] + [];
      TrimOf(header, [], []);
    }
    if Trim(header) == [] {
      assert header == before + after;
      BlanksJoin(before, after);
    } else {
      NeverFull(Trim(header), size);
    }
  }

  lemma NeverFull(h: string, size: U64)
    requires h != []
    ensures PREFIX <= h ==> ParseSpecification(Trim(h[|PREFIX|..]), size).status != Full
  {
  }

  /**
   The status says how the request was read: 206 for part of the resource and that part is sent, 200 for a
   blank or missing header and everything is sent, 416 where nothing can be served and 400 otherwise.
   */
  lemma StatusExactly(verb: HttpMethod, rangeHeader: Option<string>, size: U64)
    ensures var r, p := BuildStreamResponse(verb, rangeHeader, size), ParseRangeHeader(HeaderText(rangeHeader), size);
      && (r.status == 206 <==> p.status == Partial) && (r.status == 206 ==> r.bodyRange == p.range)
      && (r.status == 200 <==> Blanks(HeaderText(rangeHeader)))
      && (r.status == 200 && size > 0 ==> r.bodyRange == Some(ByteRange(0, size - 1)))
      && (r.status == 416 <==> p.status == Unsatisfiable || p.status == MultipleRangesUnsupported)
      && (r.status == 400 <==> p.status == Malformed)
  {
    FullIffBlank(HeaderText(rangeHeader), size);
    ServedRangeIsInside(HeaderText(rangeHeader), size);
  }

  /** The responses that have a Content-Range, and the only value it can have. */
  lemma ContentRangeExactly(verb: HttpMethod, rangeHeader: Option<string>, size: U64, value: string)
    ensures var r := BuildStreamResponse(verb, rangeHeader, size);
      Header("Content-Range", value) in r.headers <==>
      || (r.status == 416 && value == "bytes */" + Print(size))
      || (&& r.status == 206 && r.bodyRange.Some?
          && value == "bytes " + Print(r.bodyRange.value.start) + "-" + Print(r.bodyRange.value.end) + "/" + Print(size))
  {
    var r := BuildStreamResponse(verb, rangeHeader, size);
    ServedRangeIsInside(HeaderText(rangeHeader), size);
    assert r.status == 416 ==> r.headers == [Header("Content-Range", "bytes */" + Print(size)), Header("Content-Length", "0")];
    assert r.status == 400 ==> r.headers == [Header("Content-Length", "0")];
  }

  lemma SplitOnce(a: string, b: string, c: string, d: string, sep: char)
    requires a + [sep] + b == c + [sep] + d && sep !in a && sep !in c
    ensures a == c && b == d
  {
    var whole := a + [sep] + b;
    assert whole[|a|] == sep && whole[|c|] == sep;
    assert forall i :: 0 <= i < |a| ==> whole[i] == a[i];
    assert forall i :: 0 <= i < |c| ==> whole[i] == c[i];
    assert |a| == |c|;
    assert a == whole[..|a|] && c == whole[..|a|];
    assert b == whole[|a| + 1..] && d == whole[|a| + 1..];
  }

  lemma PrintedAlike(m: U64, n: U64)
    requires Print(m) == Print(n)
    ensures m == n
  {
    PrintParses(m);
    PrintParses(n);
  }

  /** A Content-Range tells the range and the size it was printed for, and no other. */
  lemma ContentRangeTells(a: ByteRange, size: U64, b: ByteRange, size': U64)
    requires "bytes " + Print(a.start) + "-" + Print(a.end) + "/" + Print(size) ==
             "bytes " + Print(b.start) + "-" + Print(b.end) + "/" + Print(size')
    ensures a == b && size == size'
  {
    PrintParses(a.start);
    PrintParses(b.start);
    NoSlash(a.end);
    NoSlash(b.end);
    ThreeParts(Print(a.start), Print(a.end), Print(size), Print(b.start), Print(b.end), Print(size'));
    PrintedAlike(a.start, b.start);
    PrintedAlike(a.end, b.end);
    PrintedAlike(size, size');
  }

  lemma ThreeParts(a: string, b: string, c: string, x: string, y: string, z: string)
    requires "bytes " + a + "-" + b + "/" + c == "bytes " + x + "-" + y + "/" + z
    requires '-' !in a && '-' !in x && '/' !in b && '/' !in y
    ensures a == x && b == y && c == z
  {
    Unprefixed(a, b, c);
    Unprefixed(x, y, z);
    SplitOnce(a, b + "/" + c, x, y + "/" + z, '-');
    SplitOnce(b, c, y, z, '/');
  }

  lemma Unprefixed(a: string, b: string, c: string)
    ensures ("bytes " + a + "-" + b + "/" + c)[6..] == a + ['-'] + (b + "/" + c)
  {
    assert "bytes " + a + "-" + b + "/" + c == "bytes " + (a + ['-'] + (b + "/" + c));
  }

  lemma NoSlash(n: nat)
    ensures '/' !in Print(n)
  {
    PrintIsDigits(n);
  }
}
