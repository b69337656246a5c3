/** Byte ranges as the file route serves them: header text, clamping, and the partial response. */
module RangeServer {
  import opened Bytes
  import Decimal

  const MAX_SAFE_INTEGER: nat := 0x1F_FFFF_FFFF_FFFF

  datatype SingleRange = From(offset: nat) | FromLength(offset: nat, length: nat) | Suffix(suffix: nat)

  /** What R2 reports about the bytes it returned: three optional fields in any of their shapes. */
  datatype R2Range = R2Range(offset: Option<int>, length: Option<int>, suffix: Option<int>)

  datatype Served = Served(offset: nat, length: nat)

  datatype Response =
    | Whole(body: Bytes)
    | Partial(first: nat, last: nat, total: nat, body: Bytes)  // 206 with Content-Range first-last/total
    | Unsatisfiable(total: nat)                                // 416 with Content-Range */total

  // ---- Header text ----

  predicate IsSpace(c: char) {
    c in " \t\n\r\U{000b}\U{000c}\U{00a0}\U{feff}"
  }

  function Trim(s: string): string {
    if |s| > 0 && IsSpace(s[0]) then Trim(s[1..])
    else if |s| > 0 && IsSpace(s[|s| - 1]) then Trim(s[..|s| - 1])
    else s
  }

  function IndexOf(s: string, c: char): (i: nat)
    ensures i <= |s| && c !in s[..i] && (i < |s| ==> s[i] == c)
  {
    if |s| == 0 || s[0] == c then 0 else 1 + IndexOf(s[1..], c)
  }

  /** `Number(text)` when it is a safe integer. */
  function SafeNumber(text: string): Option<nat>
    requires Decimal.AllDigits(text)
  {
    var n := Decimal.Read(text);
    if n <= MAX_SAFE_INTEGER then Some(n) else None
  }

  const UNIT := "bytes="

  /** `None` when the header is not one well-formed byte range; the route then serves the whole file. */
  function ParseSingleRange(header: string): Option<SingleRange> {
    var text := Trim(header);
    if !(UNIT <= text) then None
    else
      var spec := text[|UNIT|..];
      var dash := IndexOf(spec, '-');
      if dash == |spec| || !Decimal.AllDigits(spec[..dash]) || !Decimal.AllDigits(spec[dash + 1..]) then None
      else ParseEnds(spec[..dash], spec[dash + 1..])
  }

  function ParseEnds(startText: string, endText: string): Option<SingleRange>
    requires Decimal.AllDigits(startText) && Decimal.AllDigits(endText)
  {
    if startText == "" && endText == "" then None
    else if startText == "" then
      var suffix := SafeNumber(endText);
      if suffix.Some? && suffix.value > 0 then Some(Suffix(suffix.value)) else None
    else
      var offset := SafeNumber(startText);
      if offset.None? then None
      else if endText == "" then Some(From(offset.value))
      else
        var end := SafeNumber(endText);
        if end.None? || end.value < offset.value then None
        else Some(FromLength(offset.value, end.value - offset.value + 1))
  }

  function RangeHeader(first: nat, last: nat): string {
    UNIT + Decimal.Print(first) + "-" + Decimal.Print(last)
  }

  /** What the two numerals of a header name; both ends may be left out, but not at once. */
  function Named(a: string, b: string): Option<SingleRange>
    requires Decimal.AllDigits(a) && Decimal.AllDigits(b)
  {
    var first, last := Decimal.Read(a), Decimal.Read(b);
    if a != "" && b != "" && first <= last <= MAX_SAFE_INTEGER then Some(FromLength(first, last - first + 1))
    else if a != "" && b == "" && first <= MAX_SAFE_INTEGER then Some(From(first))
    else if a == "" && b != "" && 0 < last <= MAX_SAFE_INTEGER then Some(Suffix(last))
    else None
  }

  lemma EndsAreNamed(a: string, b: string)
    requires Decimal.AllDigits(a) && Decimal.AllDigits(b)
    ensures ParseEnds(a, b) == Named(a, b)
  {
  }

  lemma SpecIsSplit(a: string, b: string)
    requires Decimal.AllDigits(a) && Decimal.AllDigits(b)
    ensures var spec := a + ("-" + b);
            IndexOf(spec, '-') == |a| < |spec| && spec[..|a|] == a && spec[|a| + 1..] == b
  {
    SplitAt(a, b, '-');
  }

  /** A header is parsed exactly when it is one range of numerals, white space around it apart, and as they say. */
  lemma ParsesExactlyRanges(a: string, b: string)
    requires Decimal.AllDigits(a) && Decimal.AllDigits(b)
    ensures ParseSingleRange(UNIT + a + "-" + b) == Named(a, b)
  {
    HeaderShape(a, b);
    SpecIsSplit(a, b);
    EndsAreNamed(a, b);
  }

  lemma ParsedIsARange(header: string) returns (a: string, b: string)
    requires ParseSingleRange(header).Some?
    ensures Decimal.AllDigits(a) && Decimal.AllDigits(b) && Trim(header) == UNIT + a + "-" + b
    ensures ParseSingleRange(header) == Named(a, b)
  {
    var text := Trim(header);
    var spec := text[|UNIT|..];
    var dash := IndexOf(spec, '-');
    a, b := spec[..dash], spec[dash + 1..];
    EndsAreNamed(a, b);
    Rejoined(text, spec, dash);
  }

  lemma Rejoined(text: string, spec: string, dash: nat)
    requires UNIT <= text && spec == text[|UNIT|..] && dash < |spec| && spec[dash] == '-'
    ensures text == UNIT + spec[..dash] + "-" + spec[dash + 1..]
  {
    assert spec == spec[..dash] + ("-" + spec[dash + 1..]);
    assert text == UNIT + spec;
  }

  lemma {:induction false} SpaceBehind(header: string, c: char)
    requires IsSpace(c)
    ensures Trim(header + [c]) == Trim(header)
  {
    if |header| == 0 {
      assert (header + [c])[1..] == "";
    } else if IsSpace(header[0]) {
      assert (header + [c])[1..] == header[1..] + [c];
      SpaceBehind(header[1..], c);
    } else {
      assert (header + [c])[..|header|] == header;
    }
  }

  /** White space in front of a header and behind it does not matter. */
  lemma SpaceDoesNotMatter(header: string, c: char)
    requires c in " \t\n\r\U{000b}\U{000c}\U{00a0}\U{feff}"
    ensures ParseSingleRange([c] + header) == ParseSingleRange(header) == ParseSingleRange(header + [c])
  {
    assert ([c] + header)[1..] == header;
    SpaceBehind(header, c);
  }

  /** A range header printed by the client parses back to the range it names. */
  lemma ParsePrinted(first: nat, last: nat)
    requires first <= last <= MAX_SAFE_INTEGER
    ensures ParseSingleRange(RangeHeader(first, last)) == Some(FromLength(first, last - first + 1))
  {
    ParsesExactlyRanges(Decimal.Print(first), Decimal.Print(last));
    Decimal.ReadPrinted(first);
    Decimal.ReadPrinted(last);
  }

  /** The open-ended form, the suffix form, and a range whose ends are the wrong way round. */
  lemma ParseOtherForms(first: nat, last: nat)
    requires 0 < last < first <= MAX_SAFE_INTEGER
    ensures ParseSingleRange(UNIT + Decimal.Print(first) + "-") == Some(From(first))
    ensures ParseSingleRange(UNIT + "-" + Decimal.Print(first)) == Some(Suffix(first))
    ensures ParseSingleRange(UNIT + Decimal.Print(first) + "-" + Decimal.Print(last)) == None
    ensures ParseSingleRange(UNIT + "-") == None
  {
    var a, b := Decimal.Print(first), Decimal.Print(last);
    Decimal.ReadPrinted(first);
    Decimal.ReadPrinted(last);
    ParsesExactlyRanges(a, "");
    assert UNIT + a + "-" + "" == UNIT + a + "-";
    ParsesExactlyRanges("", a);
    assert UNIT + "" + "-" + a == UNIT + "-" + a;
    ParsesExactlyRanges(a, b);
    ParsesExactlyRanges("", "");
    assert UNIT + "" + "-" + "" == UNIT + "-";
  }

  lemma HeaderShape(a: string, b: string)
    requires Decimal.AllDigits(b)
    ensures var text := UNIT + a + "-" + b; Trim(text) == text && UNIT <= text && text[|UNIT|..] == a + ("-" + b)
  {
    var text := UNIT + a + "-" + b;
    assert text[0] == 'b' && text[|text| - 1] == if b == "" then '-' else b[|b| - 1];
    assert b != "" ==> Decimal.IsDigit(b[|b| - 1]);
  }

  lemma {:induction false} SplitAt(a: string, b: string, c: char)
    requires c !in a
    ensures IndexOf(a + ([c] + b), c) == |a|
  {
    if |a| > 0 {
      assert (a + ([c] + b))[1..] == a[1..] + ([c] + b);
      SplitAt(a[1..], b, c);
    }
  }

  // ---- Clamping ----

  function IsUnsatisfiableRange(range: SingleRange, size: nat): bool {
    match range
    case Suffix(_) => size == 0
    case _ => range.offset >= size
  }

  function ResolveServedRange(range: Option<R2Range>, size: nat): (r: Option<Served>)
    ensures r.Some? ==> r.value.offset + r.value.length <= size
  {
    if range.None? then None
    else
      var raw := range.value;
      if raw.suffix.Some? then
        var suffix := Min(Max(raw.suffix.value, 0), size);
        Some(Served(size - suffix, suffix))
      else if raw.offset.None? && raw.length.None? then None
      else
        var offset := Min(Max(if raw.offset.Some? then raw.offset.value else 0, 0), size);
        var length := Min(Max(if raw.length.Some? then raw.length.value else size - offset, 0), size - offset);
        Some(Served(offset, length))
  }

  /** The request passed on to R2, in R2's own shape. */
  function AsR2Range(range: SingleRange): R2Range {
    match range
    case From(offset) => R2Range(Some(offset), None, None)
    case FromLength(offset, length) => R2Range(Some(offset), Some(length), None)
    case Suffix(suffix) => R2Range(None, None, Some(suffix))
  }

  /** The response for the object R2 returned with the given report of its range. */
  function BuildRangeResponse(data: Bytes, range: Option<R2Range>): Response {
    var served := ResolveServedRange(range, |data|);
    if served.None? then Whole(data)
    else if served.value.length == 0 then Unsatisfiable(|data|)
    else
      var Served(offset, length) := served.value;
      Partial(offset, offset + length - 1, |data|, data[offset..offset + length])
  }

  /** The uncounted GET of an object that exists: R2 rejects a range that names no byte of it. */
  function Respond(data: Bytes, header: Option<string>): Response {
    var range := if header.Some? then ParseSingleRange(header.value) else None;
    if range.None? then Whole(data)
    else if IsUnsatisfiableRange(range.value, |data|) then Unsatisfiable(|data|)
    else BuildRangeResponse(data, Some(AsR2Range(range.value)))
  }

  // ---- What a byte range means (section 14.1.2 of RFC 9110) ----

  /** Byte `i` of an object of `size` bytes is selected by the range. */
  predicate Selects(range: SingleRange, size: nat, i: nat) {
    && i < size
    && match range
       case From(offset) => offset <= i
       case FromLength(offset, length) => offset <= i < offset + length
       case Suffix(suffix) => size - suffix <= i
  }

  /**
   * A well-formed range is answered with exactly the selected bytes, labelled with their positions
   * and the object's size; it is refused exactly when it selects no byte.
   */
  lemma RespondServesSelection(data: Bytes, header: string)
    requires ParseSingleRange(header).Some?
    ensures var range, r := ParseSingleRange(header).value, Respond(data, Some(header));
            && (r.Unsatisfiable? <==> forall i: nat :: !Selects(range, |data|, i))
            && (r.Unsatisfiable? ==> r.total == |data|)
            && (r.Partial? ==>
                  && r.first <= r.last < r.total == |data|
                  && r.body == data[r.first..r.last + 1]
                  && forall i: nat :: Selects(range, |data|, i) <==> r.first <= i <= r.last)
            && !r.Whole?
  {
    var range := ParseSingleRange(header).value;
    ParsedIsNonEmpty(header);
    if IsUnsatisfiableRange(range, |data|) {
    } else {
      match range
      case From(offset) => assert Selects(range, |data|, offset);
      case FromLength(offset, _) => assert Selects(range, |data|, offset);
      case Suffix(_) => assert Selects(range, |data|, |data| - 1);
    }
  }

  /** Byte `i` is among those R2 reports: a missing start is the beginning, a missing length goes to the end. */
  predicate Reported(raw: R2Range, size: nat, i: nat) {
    && i < size
    && if raw.suffix.Some? then i + raw.suffix.value >= size
       else
         var start := if raw.offset.Some? then Max(raw.offset.value, 0) else 0;
         start <= i && (raw.length.Some? ==> i < start + raw.length.value)
  }

  /** Whatever is reported is served and labelled as reported; without a report the body is the whole object. */
  lemma ReportIsServed(data: Bytes, raw: R2Range)
    ensures BuildRangeResponse(data, None) == Whole(data)
    ensures var r := BuildRangeResponse(data, Some(raw));
            if raw == R2Range(None, None, None) then r == Whole(data)
            else
              && (r.Unsatisfiable? ==> r.total == |data| && forall i: nat :: !Reported(raw, |data|, i))
              && (r.Partial? ==>
                    && r.first <= r.last < r.total == |data| && r.body == data[r.first..r.last + 1]
                    && forall i: nat :: Reported(raw, |data|, i) <==> r.first <= i <= r.last)
              && !r.Whole?
  {
  }

  /** Without a header, or with one that is no range, the whole object is served. */
  lemma RespondServesWhole(data: Bytes, header: Option<string>)
    ensures (header.None? || ParseSingleRange(header.value).None?) <==> Respond(data, header).Whole?
    ensures Respond(data, header).Whole? ==> Respond(data, header) == Whole(data)
  {
    if header.Some? && ParseSingleRange(header.value).Some? {
      RespondServesSelection(data, header.value);
    }
  }

  lemma ParsedIsNonEmpty(header: string)
    requires ParseSingleRange(header).Some?
    ensures var range := ParseSingleRange(header).value;
            && (range.FromLength? ==> range.length > 0) && (range.Suffix? ==> range.suffix > 0)
  {
  }

  /** However R2 phrases the range it returned, normalising it once is enough. */
  lemma ResolvedIsStable(range: Option<R2Range>, size: nat)
    requires ResolveServedRange(range, size).Some?
    ensures var s := ResolveServedRange(range, size).value;
            ResolveServedRange(Some(R2Range(Some(s.offset), Some(s.length), None)), size) == Some(s)
  {
  }

  /** R2 may report the clamped range instead of the requested one: the response is the same. */
  lemma ClampedReportIsEqual(data: Bytes, range: SingleRange)
    requires !IsUnsatisfiableRange(range, |data|)
    ensures var s := ResolveServedRange(Some(AsR2Range(range)), |data|).value;
            BuildRangeResponse(data, Some(R2Range(Some(s.offset), Some(s.length), None)))
            == BuildRangeResponse(data, Some(AsR2Range(range)))
  {
    ResolvedIsStable(Some(AsR2Range(range)), |data|);
  }

  /** The client's own range requests are always answered with the bytes they name, clamped to the end. */
  lemma RespondToRequest(data: Bytes, first: nat, last: nat)
    requires first <= last <= MAX_SAFE_INTEGER && first < |data|
    ensures var end := Min(last, |data| - 1);
            Respond(data, Some(RangeHeader(first, last))) == Partial(first, end, |data|, data[first..end + 1])
  {
    ParsePrinted(first, last);
  }
}
