/** Hand-written recognisers for the four regular expressions of
    cpu/schbench.py, each applied with `re.match` (anchored at the start of
    the line, trailing text allowed). A recogniser returns the match with all
    of its groups and the text around them; its contract says the match
    really is one (`Valid…`) and spells out exactly `line`; a round-trip
    lemma says every valid match is found again, so the recogniser accepts
    precisely the lines of that form and splits them exactly as `re` does. */
module Patterns {
  import opened Text

  // ---------------------------------------------------------------------------
  // `\d+\.\d+`, followed by `rest`

  function DecimalText(whole: string, frac: string, rest: string): string {
    whole + ("." + (frac + rest))
  }

  /** The greedy match of `\d+\.\d+` at the start of `s`. */
  function ScanDecimal(s: string): (r: Option<(string, string, string)>)
    ensures r.Some? ==> NonemptyRun(r.value.0, IsDigit) && NonemptyRun(r.value.1, IsDigit)
    ensures r.Some? ==> DecimalText(r.value.0, r.value.1, r.value.2) == s
  {
    var (whole, s1) := Span(s, IsDigit);
    if whole == "" || s1 == "" || s1[0] != '.' then None
    else
      var (frac, rest) := Span(s1[1..], IsDigit);
      assert s1 == "." + s1[1..];
      if frac == "" then None else Some((whole, frac, rest))
  }

  lemma DecimalRoundTrip(whole: string, frac: string, rest: string)
    requires NonemptyRun(whole, IsDigit) && NonemptyRun(frac, IsDigit) && Stops(rest, IsDigit)
    ensures ScanDecimal(DecimalText(whole, frac, rest)) == Some((whole, frac, rest))
  {
    var s1 := "." + (frac + rest);
    SpanConcat(whole, s1, IsDigit);
    assert s1[1..] == frac + rest;
    SpanConcat(frac, rest, IsDigit);
  }

  // ---------------------------------------------------------------------------
  // `\s*(\*?)\s*(\d+\.\d+)th: (\d+)\s+\((\d+) samples\)`

  /** A match of the percentile pattern. Group 2 is `whole + "." + frac`,
      group 3 `latency`, group 4 `samples`; `star` is group 1. */
  datatype PercentileMatch = PercentileMatch(
    lead: string, star: bool, mid: string, whole: string, frac: string,
    latency: string, gap: string, samples: string, rest: string)

  function StarText(star: bool): string {
    if star then "*" else ""
  }

  /** The line a percentile match was taken from. */
  function PercentileText(m: PercentileMatch): string {
    m.lead + (StarText(m.star) + (m.mid + DecimalText(m.whole, m.frac,
      "th: " + TailText(m.latency, m.gap, m.samples, m.rest))))
  }

  /** The pieces have the shapes the pattern demands; without a star the two
      whitespace runs are one, and it is counted as `lead`. */
  predicate ValidPercentile(m: PercentileMatch) {
    && All(m.lead, IsSpace) && All(m.mid, IsSpace) && (!m.star ==> m.mid == "")
    && NonemptyRun(m.whole, IsDigit) && NonemptyRun(m.frac, IsDigit)
    && NonemptyRun(m.latency, IsDigit) && NonemptyRun(m.gap, IsSpace)
    && NonemptyRun(m.samples, IsDigit)
  }

  /** The text after `(\d+)\s+\((\d+) samples\)`. */
  function TailText(latency: string, gap: string, samples: string, rest: string): string {
    latency + (gap + ("(" + (samples + (" samples)" + rest))))
  }

  /** The greedy match of `(\d+)\s+\((\d+) samples\)` at the start of `s`. */
  function ScanTail(s: string): (r: Option<(string, string, string, string)>)
    ensures r.Some? ==> NonemptyRun(r.value.0, IsDigit) && NonemptyRun(r.value.1, IsSpace)
    ensures r.Some? ==> NonemptyRun(r.value.2, IsDigit)
    ensures r.Some? ==> TailText(r.value.0, r.value.1, r.value.2, r.value.3) == s
  {
    var (latency, s1) := Span(s, IsDigit);
    var (gap, s2) := Span(s1, IsSpace);
    if latency == "" || gap == "" then None
    else match AfterPrefix(s2, "(")
      case None => None
      case Some(s3) =>
        var (samples, s4) := Span(s3, IsDigit);
        if samples == "" then None
        else match AfterPrefix(s4, " samples)")
          case None => None
          case Some(rest) => Some((latency, gap, samples, rest))
  }

  lemma TailRoundTrip(latency: string, gap: string, samples: string, rest: string)
    requires NonemptyRun(latency, IsDigit) && NonemptyRun(gap, IsSpace) && NonemptyRun(samples, IsDigit)
    ensures ScanTail(TailText(latency, gap, samples, rest)) == Some((latency, gap, samples, rest))
  {
    var s4 := " samples)" + rest;
    var s3 := samples + s4;
    var s2 := "(" + s3;
    var s1 := gap + s2;
    SpanConcat(latency, s1, IsDigit);
    SpanConcat(gap, s2, IsSpace);
    AfterPrefixConcat("(", s3);
    SpanConcat(samples, s4, IsDigit);
    AfterPrefixConcat(" samples)", rest);
  }

  /** `\s*(\*?)\s*`, which always matches: the leading blanks, the marker and
      the blanks after it. */
  function ScanMarker(line: string): (r: (string, bool, string, string))
    ensures All(r.0, IsSpace) && All(r.2, IsSpace) && (!r.1 ==> r.2 == "")
    ensures Stops(r.3, IsSpace)
    ensures r.0 + (StarText(r.1) + (r.2 + r.3)) == line
  {
    var (lead, s1) := Span(line, IsSpace);
    var star := s1 != "" && s1[0] == '*';
    var s2 := if star then s1[1..] else s1;
    assert s1 == StarText(star) + s2;
    var (mid, s3) := Span(s2, IsSpace);
    (lead, star, mid, s3)
  }

  lemma MarkerRoundTrip(lead: string, star: bool, mid: string, s3: string)
    requires All(lead, IsSpace) && All(mid, IsSpace) && (!star ==> mid == "")
    requires s3 != "" && IsDigit(s3[0])
    ensures ScanMarker(lead + (StarText(star) + (mid + s3))) == (lead, star, mid, s3)
  {
    var s2 := mid + s3;
    var s1 := StarText(star) + s2;
    SpanConcat(lead, s1, IsSpace);
    if star {
      assert s1[1..] == s2;
    } else {
      assert s2 == s3;
    }
    SpanConcat(mid, s3, IsSpace);
  }

  function ScanPercentile(line: string): (r: Option<PercentileMatch>)
    ensures r.Some? ==> ValidPercentile(r.value) && PercentileText(r.value) == line
  {
    var (lead, star, mid, s3) := ScanMarker(line);
    match ScanDecimal(s3)
    case None => None
    case Some((whole, frac, s5)) =>
      match AfterPrefix(s5, "th: ")
      case None => None
      case Some(s6) =>
        match ScanTail(s6)
        case None => None
        case Some((latency, gap, samples, rest)) =>
          Some(PercentileMatch(lead, star, mid, whole, frac, latency, gap, samples, rest))
  }

  lemma PercentileRoundTrip(m: PercentileMatch)
    requires ValidPercentile(m)
    ensures ScanPercentile(PercentileText(m)) == Some(m)
  {
    var s6 := TailText(m.latency, m.gap, m.samples, m.rest);
    var s5 := "th: " + s6;
    var s3 := DecimalText(m.whole, m.frac, s5);
    assert s3[0] == m.whole[0];
    MarkerRoundTrip(m.lead, m.star, m.mid, s3);
    DecimalRoundTrip(m.whole, m.frac, s5);
    AfterPrefixConcat("th: ", s6);
    TailRoundTrip(m.latency, m.gap, m.samples, m.rest);
  }

  // ---------------------------------------------------------------------------
  // `\s*min=(\d+), max=(\d+)`

  datatype MinMaxMatch = MinMaxMatch(lead: string, min: string, max: string, rest: string)

  function MinMaxText(m: MinMaxMatch): string {
    m.lead + ("min=" + (m.min + (", max=" + (m.max + m.rest))))
  }

  /** `max` is the longest digit run, so `rest` cannot start with a digit. */
  predicate ValidMinMax(m: MinMaxMatch) {
    All(m.lead, IsSpace) && NonemptyRun(m.min, IsDigit) && NonemptyRun(m.max, IsDigit)
    && Stops(m.rest, IsDigit)
  }

  function ScanMinMax(line: string): (r: Option<MinMaxMatch>)
    ensures r.Some? ==> ValidMinMax(r.value) && MinMaxText(r.value) == line
  {
    var (lead, s1) := Span(line, IsSpace);
    match AfterPrefix(s1, "min=")
    case None => None
    case Some(s2) =>
      var (min, s3) := Span(s2, IsDigit);
      if min == "" then None
      else match AfterPrefix(s3, ", max=")
        case None => None
        case Some(s4) =>
          var (max, rest) := Span(s4, IsDigit);
          if max == "" then None
          else
            var m := MinMaxMatch(lead, min, max, rest);
            assert MinMaxText(m) == line;
            Some(m)
  }

  lemma MinMaxRoundTrip(m: MinMaxMatch)
    requires ValidMinMax(m)
    ensures ScanMinMax(MinMaxText(m)) == Some(m)
  {
    var s4 := m.max + m.rest;
    var s3 := ", max=" + s4;
    var s2 := m.min + s3;
    var s1 := "min=" + s2;
    assert MinMaxText(m) == m.lead + s1;
    SpanConcat(m.lead, s1, IsSpace);
    AfterPrefixConcat("min=", s2);
    SpanConcat(m.min, s3, IsDigit);
    AfterPrefixConcat(", max=", s4);
    SpanConcat(m.max, m.rest, IsDigit);
  }

  // ---------------------------------------------------------------------------
  // `average rps: (\d+\.\d+)`

  datatype AverageRpsMatch = AverageRpsMatch(whole: string, frac: string, rest: string)

  /** Group 1. */
  function RpsValue(m: AverageRpsMatch): string {
    m.whole + "." + m.frac
  }

  function AverageRpsText(m: AverageRpsMatch): string {
    "average rps: " + DecimalText(m.whole, m.frac, m.rest)
  }

  predicate ValidAverageRps(m: AverageRpsMatch) {
    NonemptyRun(m.whole, IsDigit) && NonemptyRun(m.frac, IsDigit) && Stops(m.rest, IsDigit)
  }

  function ScanAverageRps(line: string): (r: Option<AverageRpsMatch>)
    ensures r.Some? ==> ValidAverageRps(r.value) && AverageRpsText(r.value) == line
  {
    match AfterPrefix(line, "average rps: ")
    case None => None
    case Some(s1) =>
      match ScanDecimal(s1)
      case None => None
      case Some((whole, frac, rest)) => Some(AverageRpsMatch(whole, frac, rest))
  }

  lemma AverageRpsRoundTrip(m: AverageRpsMatch)
    requires ValidAverageRps(m)
    ensures ScanAverageRps(AverageRpsText(m)) == Some(m)
  {
    AfterPrefixConcat("average rps: ", DecimalText(m.whole, m.frac, m.rest));
    DecimalRoundTrip(m.whole, m.frac, m.rest);
  }

  // ---------------------------------------------------------------------------
  // The three patterns of `parse_data` accept disjoint sets of lines.

  /** A percentile line starts with blanks and then `*` or a digit. */
  lemma PercentileStart(m: PercentileMatch)
    requires ValidPercentile(m)
    ensures var t := PercentileText(m);
      && |m.lead| < |t| && (t[|m.lead|] == '*' || IsDigit(t[|m.lead|]))
      && forall k :: 0 <= k < |m.lead| ==> IsSpace(t[k])
  {
    var t := PercentileText(m);
    var after := StarText(m.star) + (m.mid + DecimalText(m.whole, m.frac,
      "th: " + TailText(m.latency, m.gap, m.samples, m.rest)));
    assert t == m.lead + after;
    if m.star {
      assert after[0] == '*';
    } else {
      assert after[0] == m.whole[0];
    }
    forall k | 0 <= k < |m.lead|
      ensures IsSpace(t[k])
    {
      assert t[k] == m.lead[k];
    }
  }

  /** A min/max line starts with blanks and then `m`. */
  lemma MinMaxStart(m: MinMaxMatch)
    ensures var t := MinMaxText(m);
      && |m.lead| < |t| && t[|m.lead|] == 'm'
      && forall k :: 0 <= k < |m.lead| ==> t[k] == m.lead[k]
  {
    var t := MinMaxText(m);
    var after := "min=" + (m.min + (", max=" + (m.max + m.rest)));
    assert t == m.lead + after;
    assert after[0] == 'm';
  }

  /** An average line starts with `a`. */
  lemma AverageStart(a: AverageRpsMatch)
    ensures var t := AverageRpsText(a); |t| > 0 && t[0] == 'a'
  {
  }

  /** No line matches both the min/max and the percentile pattern: after the
      blanks, one starts with `m`, the other with `*` or a digit. */
  lemma MinMaxIsNotPercentile(line: string)
    requires ScanMinMax(line).Some?
    ensures ScanPercentile(line).None?
  {
    var mm := ScanMinMax(line).value;
    MinMaxStart(mm);
    if ScanPercentile(line).Some? {
      PercentileStart(ScanPercentile(line).value);
    }
  }

  /** No line matches both the average and the percentile pattern: one
      starts with `a`, the other with a blank, `*` or a digit. */
  lemma AverageIsNotPercentile(line: string)
    requires ScanAverageRps(line).Some?
    ensures ScanPercentile(line).None?
  {
    AverageStart(ScanAverageRps(line).value);
    if ScanPercentile(line).Some? {
      PercentileStart(ScanPercentile(line).value);
    }
  }

  // ---------------------------------------------------------------------------
  // `\s*([\d,.]+)\s+([^#]+)\s+#\s*([\d,.]+)\s*([^#]+)?`

  /** A match of the perf counter pattern: `count` is group 1, `name` group 2,
      `value` group 3 and `unit` group 4 (None when the optional group did not
      take part). `sep1`, `sep2`, `sep3`, `sep4` are the texts matched by the
      four whitespace items. */
  datatype PerfMatch = PerfMatch(
    lead: string, count: string, sep1: string, name: string, sep2: string,
    sep3: string, value: string, sep4: string, unit: Option<string>, rest: string)

  function UnitText(unit: Option<string>): string {
    if unit.Some? then unit.value else ""
  }

  /** `\s+([^#]+)\s+#` followed by `after`. */
  function NameText(sep1: string, name: string, sep2: string, after: string): string {
    (sep1 + (name + sep2)) + ("#" + after)
  }

  /** `\s*([\d,.]+)\s*([^#]+)?` followed by `rest`. */
  function ValueText(sep3: string, value: string, sep4: string, unit: Option<string>, rest: string): string {
    sep3 + (value + (sep4 + (UnitText(unit) + rest)))
  }

  function PerfText(m: PerfMatch): string {
    m.lead + (m.count + NameText(m.sep1, m.name, m.sep2,
      ValueText(m.sep3, m.value, m.sep4, m.unit, m.rest)))
  }

  /** The groups `re` chooses before the `#`. `[^#]+` is greedy and gives back
      a single character to the second `\s+`, so `sep2` is one character; the
      first `\s+` is greedy too but gives way when it would leave the name
      empty, so `name` starts with a non-space unless it is that one
      character. */
  predicate ValidName(sep1: string, name: string, sep2: string) {
    && NonemptyRun(sep1, IsSpace) && NonemptyRun(name, NotHash)
    && All(sep2, IsSpace) && |sep2| == 1
    && (|name| == 1 || !IsSpace(name[0]))
  }

  /** After the `#` each item takes as much as it can. */
  predicate ValidValue(sep3: string, value: string, sep4: string, unit: Option<string>, rest: string) {
    && All(sep3, IsSpace) && NonemptyRun(value, IsNumChar) && All(sep4, IsSpace)
    && (unit.Some? ==> NonemptyRun(unit.value, NotHash) && !IsSpace(unit.value[0]))
    && (unit.Some? && sep4 == "" ==> !IsNumChar(unit.value[0]))
    && Stops(rest, NotHash)
  }

  /** A match of the perf counter pattern with the groups `re` chooses. */
  predicate ValidPerf(m: PerfMatch) {
    && All(m.lead, IsSpace) && NonemptyRun(m.count, IsNumChar)
    && ValidName(m.sep1, m.name, m.sep2)
    && ValidValue(m.sep3, m.value, m.sep4, m.unit, m.rest)
  }

  function Min(a: int, b: int): int {
    if a <= b then a else b
  }

  /** How `\s+([^#]+)\s+` divides the text before the `#`. */
  function SplitRegion(region: string): (r: (string, string, string))
    requires |region| >= 3 && IsSpace(region[0]) && IsSpace(region[|region| - 1])
    requires All(region, NotHash)
    ensures ValidName(r.0, r.1, r.2)
    ensures r.0 + (r.1 + r.2) == region
  {
    var run := Span(region, IsSpace).0;
    var w := Min(|run|, |region| - 2);
    assert region[..|run|] == run;
    var sep1, name, sep2 := region[..w], region[w..|region| - 1], region[|region| - 1..];
    assert region == sep1 + (name + sep2);
    assert w < |run| ==> |name| == 1;
    (sep1, name, sep2)
  }

  /** `\s+([^#]+)\s+#` at the start of `s`, with `re`'s backtracking. */
  function ScanName(s: string): (r: Option<(string, string, string, string)>)
    ensures r.Some? ==> ValidName(r.value.0, r.value.1, r.value.2)
    ensures r.Some? ==> NameText(r.value.0, r.value.1, r.value.2, r.value.3) == s
  {
    var (region, s3) := Span(s, NotHash);
    if s3 == "" || |region| < 3 || !IsSpace(region[0]) || !IsSpace(region[|region| - 1]) then
      None
    else
      var (sep1, name, sep2) := SplitRegion(region);
      assert s3 == "#" + s3[1..];
      Some((sep1, name, sep2, s3[1..]))
  }

  /** `re` divides the text before the `#` as `ValidName` says. */
  lemma SplitRegionOf(sep1: string, name: string, sep2: string)
    requires ValidName(sep1, name, sep2)
    ensures var region := sep1 + (name + sep2);
      && |region| >= 3 && IsSpace(region[0]) && IsSpace(region[|region| - 1])
      && All(region, NotHash)
      && SplitRegion(region) == (sep1, name, sep2)
  {
    var region := sep1 + (name + sep2);
    assert region[0] == sep1[0];
    assert region[|region| - 1] == sep2[0];
    assert All(region, NotHash) by {
      assert All(sep1, NotHash) && All(sep2, NotHash);
      AllConcat(name, sep2, NotHash);
      AllConcat(sep1, name + sep2, NotHash);
    }
    if !IsSpace(name[0]) {
      SpanConcat(sep1, name + sep2, IsSpace);
    } else {
      AllConcat(name, sep2, IsSpace);
      AllConcat(sep1, name + sep2, IsSpace);
      assert region + "" == region;
      SpanConcat(region, "", IsSpace);
    }
    assert region[..|sep1|] == sep1 && region[|sep1|..|region| - 1] == name && region[|region| - 1..] == sep2;
  }

  lemma NameRoundTrip(sep1: string, name: string, sep2: string, after: string)
    requires ValidName(sep1, name, sep2)
    ensures ScanName(NameText(sep1, name, sep2, after)) == Some((sep1, name, sep2, after))
  {
    var region := sep1 + (name + sep2);
    var s3 := "#" + after;
    SplitRegionOf(sep1, name, sep2);
    SpanConcat(region, s3, NotHash);
    assert s3[1..] == after;
  }

  /** `\s*([\d,.]+)\s*([^#]+)?` at the start of `s`. */
  function ScanValue(s: string): (r: Option<(string, string, string, Option<string>, string)>)
    ensures r.Some? ==> ValidValue(r.value.0, r.value.1, r.value.2, r.value.3, r.value.4)
    ensures r.Some? ==> ValueText(r.value.0, r.value.1, r.value.2, r.value.3, r.value.4) == s
  {
    var (sep3, s4) := Span(s, IsSpace);
    var (value, s5) := Span(s4, IsNumChar);
    if value == "" then None
    else
      var (sep4, s6) := Span(s5, IsSpace);
      var (unitText, rest) := Span(s6, NotHash);
      var unit := if unitText == "" then None else Some(unitText);
      assert UnitText(unit) == unitText;
      Some((sep3, value, sep4, unit, rest))
  }

  lemma ValueRoundTrip(sep3: string, value: string, sep4: string, unit: Option<string>, rest: string)
    requires ValidValue(sep3, value, sep4, unit, rest)
    ensures ScanValue(ValueText(sep3, value, sep4, unit, rest)) == Some((sep3, value, sep4, unit, rest))
  {
    var s6 := UnitText(unit) + rest;
    var s5 := sep4 + s6;
    var s4 := value + s5;
    SpanConcat(sep3, s4, IsSpace);
    SpanConcat(value, s5, IsNumChar);
    SpanConcat(sep4, s6, IsSpace);
    SpanConcat(UnitText(unit), rest, NotHash);
  }

  function ScanPerf(line: string): (r: Option<PerfMatch>)
    ensures r.Some? ==> ValidPerf(r.value) && PerfText(r.value) == line
  {
    var (lead, s1) := Span(line, IsSpace);
    var (count, s2) := Span(s1, IsNumChar);
    if count == "" then None
    else match ScanName(s2)
      case None => None
      case Some((sep1, name, sep2, s3)) =>
        match ScanValue(s3)
        case None => None
        case Some((sep3, value, sep4, unit, rest)) =>
          Some(PerfMatch(lead, count, sep1, name, sep2, sep3, value, sep4, unit, rest))
  }

  lemma PerfRoundTrip(m: PerfMatch)
    requires ValidPerf(m)
    ensures ScanPerf(PerfText(m)) == Some(m)
  {
    var s3 := ValueText(m.sep3, m.value, m.sep4, m.unit, m.rest);
    var s2 := NameText(m.sep1, m.name, m.sep2, s3);
    SpanConcat(m.lead, m.count + s2, IsSpace);
    SpanConcat(m.count, s2, IsNumChar);
    NameRoundTrip(m.sep1, m.name, m.sep2, s3);
    ValueRoundTrip(m.sep3, m.value, m.sep4, m.unit, m.rest);
  }
}
