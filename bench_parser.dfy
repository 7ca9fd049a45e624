/** `Schbench.parse_data` (cpu/schbench.py:65-117): one left-to-right pass over
    the benchmark's stderr lines that collects, per latency category, the
    percentile lines and the min/max line, and the top-level average RPS.

    The result dictionary is modelled as a `map<string, Value>`. Under a
    category key it holds the category's block; under `"average_rps"` it holds
    the number, kept as the digit string that `float()` would have read. */
module BenchParser {
  import opened Text
  import opened Patterns

  /** One `{"percentile", "latency", "samples"}` dictionary. */
  datatype PercentileEntry = PercentileEntry(percentile: string, latency: string, samples: string)

  /** `{"percentiles": [...], "min_max": {...}}`. */
  datatype CategoryBlock = CategoryBlock(percentiles: seq<PercentileEntry>, minMax: map<string, string>)

  /** A value of the result dictionary: a category block, a number, or (once
      perf counters are merged in) a counter's fields. */
  datatype Value =
    | Category(block: CategoryBlock)
    | Number(text: string)
    | Counter(fields: map<string, string>)

  const EmptyBlock := CategoryBlock([], map[])

  const WakeupHeader := "Wakeup Latencies percentiles"
  const RequestHeader := "Request Latencies percentiles"
  const RpsHeader := "RPS percentiles (requests)"
  const AverageRpsKey := "average_rps"

  /** `category_mapping.items()` in iteration order: the text searched for and
      the key it selects. */
  const CategoryMapping: seq<(string, string)> :=
    [(WakeupHeader, WakeupHeader), (RequestHeader, RequestHeader), (RpsHeader, RpsHeader)]

  predicate IsCategoryKey(k: string) {
    k == WakeupHeader || k == RequestHeader || k == RpsHeader
  }

  /** True when `line` contains one of the three header texts. */
  predicate HasHeader(line: string) {
    Contains(line, WakeupHeader) || Contains(line, RequestHeader) || Contains(line, RpsHeader)
  }

  /** The loop state of `parse_data`: `results` and `current_category`.
      `current_percentiles` always aliases `results[current_category]`, so it
      is not a separate component: updates through it are updates of
      `results` at the current key. */
  datatype ParseState = ParseState(results: map<string, Value>, current: Option<string>)

  /** What the loop keeps true: category keys hold blocks, `"average_rps"`
      holds a number, nothing else is stored, and the current category has
      its block. */
  predicate Valid(st: ParseState) {
    && (forall k :: k in st.results ==>
          (IsCategoryKey(k) && st.results[k].Category?) || (k == AverageRpsKey && st.results[k].Number?))
    && (st.current.Some? ==> IsCategoryKey(st.current.value) && st.current.value in st.results)
  }

  const Initial := ParseState(map[], None)

  /** The dictionary built from a percentile match (cpu/schbench.py:94-100):
      groups 2, 3 and 4 as captured; the marker in group 1 is not used. The
      percentile is exactly the `\d+\.\d+` text of group 2. */
  function EntryOf(m: PercentileMatch): (r: PercentileEntry)
    ensures r.latency == m.latency && r.samples == m.samples
    ensures ValidPercentile(m) ==> ScanDecimal(r.percentile) == Some((m.whole, m.frac, ""))
  {
    assert ValidPercentile(m) ==> ScanDecimal(m.whole + "." + m.frac) == Some((m.whole, m.frac, "")) by {
      assert DecimalText(m.whole, m.frac, "") == m.whole + "." + m.frac;
      if ValidPercentile(m) {
        DecimalRoundTrip(m.whole, m.frac, "");
      }
    }
    PercentileEntry(m.whole + "." + m.frac, m.latency, m.samples)
  }

  /** A header: `current_category = key` and `results.setdefault(key, ...)`. */
  function EnterCategory(st: ParseState, key: string): (r: ParseState)
    requires Valid(st) && IsCategoryKey(key)
    ensures Valid(r) && Extends(st, r)
    ensures r.current == Some(key)
    ensures r.results.Keys == st.results.Keys + {key}
    ensures forall k :: k in st.results ==> r.results[k] == st.results[k]
    ensures key !in st.results ==> r.results[key] == Category(EmptyBlock)
  {
    var results := if key in st.results then st.results else st.results[key := Category(EmptyBlock)];
    ParseState(results, Some(key))
  }

  /** `current_percentiles["percentiles"].append(entry)`. */
  function AppendEntry(st: ParseState, entry: PercentileEntry): (r: ParseState)
    requires Valid(st) && st.current.Some?
    ensures Valid(r) && Extends(st, r) && r.current == st.current && r.results.Keys == st.results.Keys
    ensures forall k :: k in st.results && k != st.current.value ==> r.results[k] == st.results[k]
    ensures r.results[st.current.value].block.percentiles == st.results[st.current.value].block.percentiles + [entry]
    ensures r.results[st.current.value].block.minMax == st.results[st.current.value].block.minMax
  {
    var key := st.current.value;
    var block := st.results[key].block;
    ParseState(st.results[key := Category(block.(percentiles := block.percentiles + [entry]))], st.current)
  }

  /** `current_percentiles["min_max"]["min"] = min` and then `["max"] = max`. */
  function SetMinMax(st: ParseState, min: string, max: string): (r: ParseState)
    requires Valid(st) && st.current.Some?
    ensures Valid(r) && Extends(st, r) && r.current == st.current && r.results.Keys == st.results.Keys
    ensures forall k :: k in st.results && k != st.current.value ==> r.results[k] == st.results[k]
    ensures var key := st.current.value;
      && r.results[key].block.percentiles == st.results[key].block.percentiles
      && r.results[key].block.minMax.Keys == st.results[key].block.minMax.Keys + {"min", "max"}
      && r.results[key].block.minMax["min"] == min && r.results[key].block.minMax["max"] == max
      && forall f :: f in st.results[key].block.minMax && f != "min" && f != "max" ==>
           r.results[key].block.minMax[f] == st.results[key].block.minMax[f]
  {
    var key := st.current.value;
    var block := st.results[key].block;
    ParseState(st.results[key := Category(block.(minMax := block.minMax["min" := min]["max" := max]))], st.current)
  }

  /** `results["average_rps"] = float(value)`. */
  function SetAverageRps(st: ParseState, value: string): (r: ParseState)
    requires Valid(st)
    ensures Valid(r) && Extends(st, r) && r.current == st.current && r.results.Keys == st.results.Keys + {AverageRpsKey}
    ensures forall k :: k in st.results && k != AverageRpsKey ==> r.results[k] == st.results[k]
    ensures r.results[AverageRpsKey] == Number(value)
  {
    ParseState(st.results[AverageRpsKey := Number(value)], st.current)
  }

  /** The `else:` branch of cpu/schbench.py:87-116, run for one category name
      the line does not contain. */
  function DataLine(st: ParseState, line: string): (r: ParseState)
    requires Valid(st)
    ensures Valid(r) && Extends(st, r)
    ensures r.current == st.current
    ensures r.results.Keys <= st.results.Keys + {AverageRpsKey}
    ensures forall k :: k in st.results && Some(k) != st.current && k != AverageRpsKey ==>
      k in r.results && r.results[k] == st.results[k]
  {
    if st.current.None? || Blank(line) then st
    else match ScanPercentile(line)
      case Some(m) => AppendEntry(st, EntryOf(m))
      case None =>
        if Contains(line, "min=") then
          match ScanMinMax(line)
          case Some(mm) => SetMinMax(st, mm.min, mm.max)
          case None => st
        else if Contains(line, "average rps:") then
          match ScanAverageRps(line)
          case Some(a) => SetAverageRps(st, RpsValue(a))
          case None => st
        else st
  }

  /** A line is ignored while no category is current, and so is a blank line. */
  lemma DataLineIgnored(st: ParseState, line: string)
    requires Valid(st)
    requires st.current.None? || Blank(line)
    ensures DataLine(st, line) == st
  {
  }

  /** A percentile line appends its entry to the current category's list. */
  lemma DataLinePercentile(st: ParseState, line: string, m: PercentileMatch)
    requires Valid(st) && st.current.Some?
    requires ScanPercentile(line) == Some(m)
    ensures DataLine(st, line) == AppendEntry(st, EntryOf(m))
  {
    PercentileLineNotBlank(line);
    PercentileBranch(st, line, m);
  }

  /** The branch of cpu/schbench.py:90-102, reached by a non-blank line. */
  lemma PercentileBranch(st: ParseState, line: string, m: PercentileMatch)
    requires Valid(st) && st.current.Some? && !Blank(line)
    requires ScanPercentile(line) == Some(m)
    ensures DataLine(st, line) == AppendEntry(st, EntryOf(m))
  {
  }

  /** A line that matches the min/max pattern overwrites the current
      category's `min` and `max`: it is not blank, not a percentile line, and
      contains `min=`. */
  lemma DataLineMinMax(st: ParseState, line: string, mm: MinMaxMatch)
    requires Valid(st) && st.current.Some?
    requires ScanMinMax(line) == Some(mm)
    ensures DataLine(st, line) == SetMinMax(st, mm.min, mm.max)
  {
    MinMaxLineContainsMin(line);
    MinMaxIsNotPercentile(line);
    MinMaxBranch(st, line, mm);
  }

  /** The branch of cpu/schbench.py:103-110, reached by a non-blank line that
      is not a percentile line and contains `min=`. */
  lemma MinMaxBranch(st: ParseState, line: string, mm: MinMaxMatch)
    requires Valid(st) && st.current.Some? && !Blank(line)
    requires ScanPercentile(line).None? && Contains(line, "min=")
    requires ScanMinMax(line) == Some(mm)
    ensures DataLine(st, line) == SetMinMax(st, mm.min, mm.max)
  {
  }

  /** A line with `min=` that fails the min/max pattern changes nothing, even
      when it also holds an average RPS line: that pattern is not tried. */
  lemma DataLineMinUnmatched(st: ParseState, line: string)
    requires Valid(st)
    requires ScanPercentile(line).None? && Contains(line, "min=") && ScanMinMax(line).None?
    ensures DataLine(st, line) == st
  {
  }

  /** A line without `min=` that matches the average RPS pattern sets
      `"average_rps"`, whichever category is current. */
  lemma DataLineAverageRps(st: ParseState, line: string, a: AverageRpsMatch)
    requires Valid(st) && st.current.Some?
    requires !Contains(line, "min=") && ScanAverageRps(line) == Some(a)
    ensures DataLine(st, line) == SetAverageRps(st, RpsValue(a))
  {
    AverageRpsLineNotBlank(line);
    AverageIsNotPercentile(line);
    assert Contains(line, "average rps:") by {
      assert StartsWith(line[0..], "average rps:");
    }
    AverageRpsBranch(st, line, a);
  }

  /** The branch of cpu/schbench.py:111-116, reached by a non-blank line that
      is not a percentile line, lacks `min=` and contains `average rps:`. */
  lemma AverageRpsBranch(st: ParseState, line: string, a: AverageRpsMatch)
    requires Valid(st) && st.current.Some? && !Blank(line)
    requires ScanPercentile(line).None? && !Contains(line, "min=") && Contains(line, "average rps:")
    requires ScanAverageRps(line) == Some(a)
    ensures DataLine(st, line) == SetAverageRps(st, RpsValue(a))
  {
  }

  /** Any other line changes nothing. */
  lemma DataLineOther(st: ParseState, line: string)
    requires Valid(st)
    requires ScanPercentile(line).None? && !Contains(line, "min=")
    requires !Contains(line, "average rps:") || ScanAverageRps(line).None?
    ensures DataLine(st, line) == st
  {
  }

  /** The inner `for category_name, category_key in category_mapping.items()`
      from position `j` on: the data branch runs for every name the line does
      not contain until one it does contain switches category and breaks. */
  function ScanCategories(st: ParseState, line: string, j: nat): (r: ParseState)
    requires Valid(st) && j <= |CategoryMapping|
    ensures Valid(r)
    decreases |CategoryMapping| - j
  {
    if j == |CategoryMapping| then st
    else if Contains(line, CategoryMapping[j].0) then EnterCategory(st, CategoryMapping[j].1)
    else ScanCategories(DataLine(st, line), line, j + 1)
  }

  /** One iteration of the outer `for line in data`. */
  function LineStep(st: ParseState, line: string): (r: ParseState)
    requires Valid(st)
    ensures Valid(r)
  {
    ScanCategories(st, line, 0)
  }

  /** The outer loop over `lines`, starting from state `st`. */
  function Fold(st: ParseState, lines: seq<string>): (r: ParseState)
    requires Valid(st)
    ensures Valid(r)
    decreases |lines|
  {
    if lines == [] then st else Fold(LineStep(st, lines[0]), lines[1..])
  }

  lemma FoldUnfold(st: ParseState, lines: seq<string>)
    requires Valid(st) && lines != []
    ensures Fold(st, lines) == Fold(LineStep(st, lines[0]), lines[1..])
  {
  }

  /** What `parse_data(data)` returns: only the three category keys and
      `"average_rps"` can occur, with a block and a number under them. */
  function ParseDataSpec(data: seq<string>): (r: map<string, Value>)
    ensures forall k :: k in r ==> (IsCategoryKey(k) && r[k].Category?) || (k == AverageRpsKey && r[k].Number?)
  {
    Fold(Initial, data).results
  }

  // ---------------------------------------------------------------------------
  // What one line does.

  /** A line with a digit is not blank. */
  lemma NotBlank(line: string, i: nat)
    requires i < |line| && IsDigit(line[i])
    ensures !Blank(line)
  {
    assert !IsSpace(line[i]);
  }

  lemma PercentileTextNotBlank(m: PercentileMatch)
    requires ValidPercentile(m)
    ensures !Blank(PercentileText(m))
  {
    var pre := m.lead + (StarText(m.star) + m.mid);
    var post := DecimalText(m.whole, m.frac, "th: " + TailText(m.latency, m.gap, m.samples, m.rest));
    assert PercentileText(m) == pre + post;
    assert post[0] == m.whole[0];
    NotBlank(PercentileText(m), |pre|);
  }

  lemma PercentileLineNotBlank(line: string)
    requires ScanPercentile(line).Some?
    ensures !Blank(line)
  {
    PercentileTextNotBlank(ScanPercentile(line).value);
  }

  lemma MinMaxLineContainsMin(line: string)
    requires ScanMinMax(line).Some?
    ensures !Blank(line) && Contains(line, "min=")
  {
    var m := ScanMinMax(line).value;
    var post := "min=" + (m.min + (", max=" + (m.max + m.rest)));
    assert line == m.lead + post;
    assert line[|m.lead|..] == post;
    assert StartsWith(line[|m.lead|..], "min=");
    assert line[|m.lead| + 4] == m.min[0];
    NotBlank(line, |m.lead| + 4);
  }

  lemma AverageRpsLineNotBlank(line: string)
    requires ScanAverageRps(line).Some?
    ensures !Blank(line)
  {
    var a := ScanAverageRps(line).value;
    assert line[13] == a.whole[0];
    NotBlank(line, 13);
  }

  /** A line that names no category runs the data branch three times, once
      for each of the three names. */
  lemma NonHeaderLineStep(st: ParseState, line: string)
    requires Valid(st) && !HasHeader(line)
    ensures LineStep(st, line) == DataLine(DataLine(DataLine(st, line), line), line)
  {
    var st1 := DataLine(st, line);
    var st2 := DataLine(st1, line);
    calc {
      LineStep(st, line);
      ScanCategories(st1, line, 1);
      ScanCategories(st2, line, 2);
      ScanCategories(DataLine(st2, line), line, 3);
    }
  }

  /** The Wakeup header switches to its category at once. */
  lemma WakeupHeaderLine(st: ParseState, line: string)
    requires Valid(st) && Contains(line, WakeupHeader)
    ensures LineStep(st, line) == EnterCategory(st, WakeupHeader)
  {
  }

  /** The Request header is tried second: the line first goes through the
      data branch once, for the Wakeup name it does not contain. */
  lemma RequestHeaderLine(st: ParseState, line: string)
    requires Valid(st) && !Contains(line, WakeupHeader) && Contains(line, RequestHeader)
    ensures LineStep(st, line) == EnterCategory(DataLine(st, line), RequestHeader)
  {
    assert LineStep(st, line) == ScanCategories(DataLine(st, line), line, 1);
  }

  /** The RPS header is tried last, after two passes through the data branch. */
  lemma RpsHeaderLine(st: ParseState, line: string)
    requires Valid(st) && !Contains(line, WakeupHeader) && !Contains(line, RequestHeader)
    requires Contains(line, RpsHeader)
    ensures LineStep(st, line) == EnterCategory(DataLine(DataLine(st, line), line), RpsHeader)
  {
    var st1 := DataLine(st, line);
    assert LineStep(st, line) == ScanCategories(st1, line, 1);
    assert ScanCategories(st1, line, 1) == ScanCategories(DataLine(st1, line), line, 2);
  }

  /** Before the first header every other line is ignored. */
  lemma NoCategoryLineIgnored(st: ParseState, line: string)
    requires Valid(st) && st.current.None? && !HasHeader(line)
    ensures LineStep(st, line) == st
  {
    NonHeaderLineStep(st, line);
    DataLineIgnored(st, line);
  }

  lemma AppendEntryThrice(st: ParseState, e: PercentileEntry)
    requires Valid(st) && st.current.Some?
    ensures var key := st.current.value;
      var block := st.results[key].block;
      AppendEntry(AppendEntry(AppendEntry(st, e), e), e)
        == ParseState(st.results[key := Category(block.(percentiles := block.percentiles + [e, e, e]))], st.current)
  {
    var block := st.results[st.current.value].block;
    assert block.percentiles + [e] + [e] + [e] == block.percentiles + [e, e, e];
  }

  lemma PercentileLineStep(st: ParseState, line: string, m: PercentileMatch)
    requires Valid(st) && st.current.Some? && !HasHeader(line)
    requires ScanPercentile(line) == Some(m)
    ensures LineStep(st, line) == AppendEntry(AppendEntry(AppendEntry(st, EntryOf(m)), EntryOf(m)), EntryOf(m))
  {
    PercentileLineNotBlank(line);
    NonHeaderLineStep(st, line);
    var st1 := DataLine(st, line);
    DataLinePercentile(st, line, m);
    var st2 := DataLine(st1, line);
    DataLinePercentile(st1, line, m);
    DataLinePercentile(st2, line, m);
  }

  /** A percentile line under a category adds its entry to that category's
      list three times (once per category name it does not contain) and
      changes nothing else. */
  lemma PercentileLineAppendsThrice(st: ParseState, line: string, m: PercentileMatch)
    requires Valid(st) && st.current.Some? && !HasHeader(line)
    requires ScanPercentile(line) == Some(m)
    ensures var key := st.current.value;
      var block := st.results[key].block;
      var e := EntryOf(m);
      LineStep(st, line) == ParseState(st.results[key := Category(block.(percentiles := block.percentiles + [e, e, e]))], st.current)
  {
    PercentileLineStep(st, line, m);
    AppendEntryThrice(st, EntryOf(m));
  }

  /** The `*` that marks a percentile line is matched and then discarded:
      the marked line and the same line without the marker have the same
      effect. */
  lemma StarMarkerIgnored(st: ParseState, m: PercentileMatch)
    requires Valid(st) && st.current.Some? && ValidPercentile(m) && m.star
    requires !HasHeader(PercentileText(m))
    requires !HasHeader(PercentileText(m.(lead := m.lead + m.mid, star := false, mid := "")))
    ensures LineStep(st, PercentileText(m))
         == LineStep(st, PercentileText(m.(lead := m.lead + m.mid, star := false, mid := "")))
  {
    var plain := m.(lead := m.lead + m.mid, star := false, mid := "");
    AllConcat(m.lead, m.mid, IsSpace);
    assert PercentileText(plain) == m.lead + (m.mid + DecimalText(m.whole, m.frac,
      "th: " + TailText(m.latency, m.gap, m.samples, m.rest)));
    PercentileRoundTrip(m);
    PercentileRoundTrip(plain);
    PercentileLineAppendsThrice(st, PercentileText(m), m);
    PercentileLineAppendsThrice(st, PercentileText(plain), plain);
  }

  /** Setting `min` and `max` again to the same values changes nothing. */
  lemma SetMinMaxIdempotent(st: ParseState, min: string, max: string)
    requires Valid(st) && st.current.Some?
    ensures SetMinMax(SetMinMax(st, min, max), min, max) == SetMinMax(st, min, max)
  {
    var block := st.results[st.current.value].block;
    var once := block.minMax["min" := min]["max" := max];
    assert once["min" := min]["max" := max] == once;
  }

  lemma MinMaxLineStep(st: ParseState, line: string, mm: MinMaxMatch)
    requires Valid(st) && st.current.Some? && !HasHeader(line)
    requires ScanMinMax(line) == Some(mm)
    ensures LineStep(st, line) == SetMinMax(SetMinMax(SetMinMax(st, mm.min, mm.max), mm.min, mm.max), mm.min, mm.max)
  {
    NonHeaderLineStep(st, line);
    var st1 := DataLine(st, line);
    DataLineMinMax(st, line, mm);
    var st2 := DataLine(st1, line);
    DataLineMinMax(st1, line, mm);
    DataLineMinMax(st2, line, mm);
  }

  /** A min/max line under a category sets its `min` and `max`, keeping the
      percentile list and every other key. */
  lemma MinMaxLineSets(st: ParseState, line: string, mm: MinMaxMatch)
    requires Valid(st) && st.current.Some? && !HasHeader(line)
    requires ScanMinMax(line) == Some(mm)
    ensures var key := st.current.value;
      var block := st.results[key].block;
      LineStep(st, line) == ParseState(st.results[key := Category(block.(minMax := block.minMax["min" := mm.min]["max" := mm.max]))], st.current)
  {
    MinMaxLineStep(st, line, mm);
    SetMinMaxIdempotent(st, mm.min, mm.max);
  }

  /** A line with `min=` that fails the min/max pattern is dropped, even when
      it matches the average RPS pattern. */
  lemma UnmatchedMinLineIgnored(st: ParseState, line: string)
    requires Valid(st) && !HasHeader(line)
    requires ScanPercentile(line).None? && Contains(line, "min=") && ScanMinMax(line).None?
    ensures LineStep(st, line) == st
  {
    NonHeaderLineStep(st, line);
    DataLineMinUnmatched(st, line);
  }

  lemma SetAverageRpsIdempotent(st: ParseState, value: string)
    requires Valid(st)
    ensures SetAverageRps(SetAverageRps(st, value), value) == SetAverageRps(st, value)
  {
    var v := Number(value);
    assert st.results[AverageRpsKey := v][AverageRpsKey := v] == st.results[AverageRpsKey := v];
  }

  lemma AverageRpsLineStep(st: ParseState, line: string, a: AverageRpsMatch)
    requires Valid(st) && st.current.Some? && !HasHeader(line)
    requires !Contains(line, "min=") && ScanAverageRps(line) == Some(a)
    ensures LineStep(st, line) == SetAverageRps(SetAverageRps(SetAverageRps(st, RpsValue(a)), RpsValue(a)), RpsValue(a))
  {
    NonHeaderLineStep(st, line);
    var st1 := DataLine(st, line);
    DataLineAverageRps(st, line, a);
    var st2 := DataLine(st1, line);
    DataLineAverageRps(st1, line, a);
    DataLineAverageRps(st2, line, a);
  }

  /** An average RPS line under any category sets `"average_rps"`, replacing
      an earlier value. */
  lemma AverageRpsLineSets(st: ParseState, line: string, a: AverageRpsMatch)
    requires Valid(st) && st.current.Some? && !HasHeader(line)
    requires !Contains(line, "min=") && ScanAverageRps(line) == Some(a)
    ensures LineStep(st, line) == ParseState(st.results[AverageRpsKey := Number(RpsValue(a))], st.current)
  {
    AverageRpsLineStep(st, line, a);
    SetAverageRpsIdempotent(st, RpsValue(a));
  }

  // ---------------------------------------------------------------------------
  // What the whole pass does.

  /** `r` keeps every key of `st`, and every category's percentile list in `r`
      starts with the list it had in `st`. */
  predicate Extends(st: ParseState, r: ParseState) {
    forall k :: k in st.results ==>
      && k in r.results
      && (st.results[k].Category? ==>
            r.results[k].Category? && st.results[k].block.percentiles <= r.results[k].block.percentiles)
  }

  lemma ExtendsTrans(a: ParseState, b: ParseState, c: ParseState)
    requires Extends(a, b) && Extends(b, c)
    ensures Extends(a, c)
  {
  }

  lemma {:induction false} ScanCategoriesExtends(st: ParseState, line: string, j: nat)
    requires Valid(st) && j <= |CategoryMapping|
    ensures Extends(st, ScanCategories(st, line, j))
    decreases |CategoryMapping| - j
  {
    if j < |CategoryMapping| && !Contains(line, CategoryMapping[j].0) {
      var st1 := DataLine(st, line);
      assert ScanCategories(st, line, j) == ScanCategories(st1, line, j + 1);
      ScanCategoriesExtends(st1, line, j + 1);
      ExtendsTrans(st, st1, ScanCategories(st1, line, j + 1));
    }
  }

  /** A category, once entered, stays in the result, and its percentile list
      only grows at the end: later lines never remove or reorder entries. */
  lemma {:induction false} FoldExtends(st: ParseState, lines: seq<string>)
    requires Valid(st)
    ensures Extends(st, Fold(st, lines))
    decreases |lines|
  {
    if lines != [] {
      var st1 := LineStep(st, lines[0]);
      ScanCategoriesExtends(st, lines[0], 0);
      FoldExtends(st1, lines[1..]);
      ExtendsTrans(st, st1, Fold(st, lines));
    }
  }

  /** The pass over `a + b` is the pass over `a` continued over `b`. */
  lemma {:induction false} FoldAppend(st: ParseState, a: seq<string>, b: seq<string>)
    requires Valid(st)
    ensures Fold(st, a + b) == Fold(Fold(st, a), b)
    decreases |a|
  {
    if a == [] {
      assert a + b == b;
    } else {
      assert (a + b)[0] == a[0] && (a + b)[1..] == a[1..] + b;
      FoldAppend(LineStep(st, a[0]), a[1..], b);
    }
  }

  /** Output without any header line parses to the empty dictionary. */
  lemma {:induction false} NoHeaderNoResults(data: seq<string>)
    requires forall i :: 0 <= i < |data| ==> !HasHeader(data[i])
    ensures ParseDataSpec(data) == map[]
  {
    NoHeaderFold(data);
  }

  lemma {:induction false} NoHeaderFold(lines: seq<string>)
    requires forall i :: 0 <= i < |lines| ==> !HasHeader(lines[i])
    ensures Fold(Initial, lines) == Initial
    decreases |lines|
  {
    if lines != [] {
      NoCategoryLineIgnored(Initial, lines[0]);
      NoHeaderFold(lines[1..]);
    }
  }


  /** `parse_data`, as the source writes it: the outer loop over lines. */
  method ParseData(data: seq<string>) returns (results: map<string, Value>)
    ensures results == ParseDataSpec(data)
  {
    results := map[];
    var currentCategory: Option<string> := None;
    var i := 0;
    while i < |data|
      invariant 0 <= i <= |data|
      invariant Valid(ParseState(results, currentCategory))
      invariant Fold(ParseState(results, currentCategory), data[i..]) == Fold(Initial, data)
    {
      ghost var before := ParseState(results, currentCategory);
      results, currentCategory := ParseLine(results, currentCategory, data[i]);
      assert data[i..][0] == data[i] && data[i..][1..] == data[i + 1..];
      FoldUnfold(before, data[i..]);
      i := i + 1;
    }
    assert data[i..] == [];
  }

  /** The body of the outer loop for one `line`: the inner loop over the
      categories, with its `break` and its `else:`. */
  method ParseLine(results0: map<string, Value>, currentCategory0: Option<string>, line: string)
    returns (results: map<string, Value>, currentCategory: Option<string>)
    requires Valid(ParseState(results0, currentCategory0))
    ensures ParseState(results, currentCategory) == LineStep(ParseState(results0, currentCategory0), line)
  {
    results, currentCategory := results0, currentCategory0;
    var j := 0;
    while j < |CategoryMapping|
      invariant 0 <= j <= |CategoryMapping|
      invariant Valid(ParseState(results, currentCategory))
      invariant ScanCategories(ParseState(results, currentCategory), line, j) == LineStep(ParseState(results0, currentCategory0), line)
    {
      ghost var st := ParseState(results, currentCategory);
      var (categoryName, categoryKey) := CategoryMapping[j];
      if Contains(line, categoryName) {
        currentCategory := Some(categoryKey);
        if categoryKey !in results {
          results := results[categoryKey := Category(EmptyBlock)];
        }
        assert ParseState(results, currentCategory) == EnterCategory(st, categoryKey);
        return;
      } else {
        results := ApplyDataLine(results, currentCategory, line);
        assert ParseState(results, currentCategory) == DataLine(st, line);
      }
      j := j + 1;
    }
  }

  /** The `else:` branch for one category name, updating `results` in place
      (through the `current_percentiles` alias at the current key). */
  method ApplyDataLine(results0: map<string, Value>, currentCategory: Option<string>, line: string)
    returns (results: map<string, Value>)
    requires Valid(ParseState(results0, currentCategory))
    ensures ParseState(results, currentCategory) == DataLine(ParseState(results0, currentCategory), line)
  {
    results := results0;
    ghost var st := ParseState(results0, currentCategory);
    var stripped := Strip(line);
    if currentCategory.None? || stripped == "" {
      DataLineIgnored(st, line);
      return;
    }
    var key := currentCategory.value;
    var percentileMatch := ScanPercentile(line);
    if percentileMatch.Some? {
      var currentPercentiles := results[key].block;
      var entry := EntryOf(percentileMatch.value);
      results := results[key := Category(currentPercentiles.(percentiles := currentPercentiles.percentiles + [entry]))];
      DataLinePercentile(st, line, percentileMatch.value);
    } else if Contains(line, "min=") {
      var minMaxMatch := ScanMinMax(line);
      if minMaxMatch.Some? {
        var currentPercentiles := results[key].block;
        var minMax := currentPercentiles.minMax["min" := minMaxMatch.value.min];
        minMax := minMax["max" := minMaxMatch.value.max];
        results := results[key := Category(currentPercentiles.(minMax := minMax))];
        DataLineMinMax(st, line, minMaxMatch.value);
      } else {
        DataLineMinUnmatched(st, line);
      }
    } else {
      if Contains(line, "average rps:") {
        var averageRpsMatch := ScanAverageRps(line);
        if averageRpsMatch.Some? {
          results := results[AverageRpsKey := Number(RpsValue(averageRpsMatch.value))];
          DataLineAverageRps(st, line, averageRpsMatch.value);
          return;
        }
      }
      DataLineOther(st, line);
    }
  }
}
