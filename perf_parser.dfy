/** `Schbench.parse_perf_data` (cpu/schbench.py:119-144): after the line that
    announces perf's counter statistics, every line that matches the counter
    pattern records the counter's raw count and, when perf printed one, the
    value of its derived metric under the metric's unit.

    Each counter's fields are a `map<string, string>`; a number is kept as
    the text that `float()` would have read. */
module PerfParser {
  import opened Text
  import opened Patterns

  const StatsMarker := "Performance counter stats"
  const RawField := "raw"

  /** What one counter line contributes: the stripped groups of the match,
      with the thousands separators removed from both numbers. */
  datatype CounterReading = CounterReading(key: string, raw: string, unitValue: string, unit: string)

  /** cpu/schbench.py:134-137. The two numbers are groups 1 and 3 without
      their commas (they hold no whitespace, so `strip()` leaves them alone);
      the key is group 2 stripped; the unit is group 4 stripped. A unit group
      that takes part in the match begins with a non-space, so the unit is
      empty exactly when perf printed none. */
  function Reading(m: PerfMatch): (r: CounterReading)
    requires ValidPerf(m)
    ensures r.raw == RemoveCommas(m.count) && r.unitValue == RemoveCommas(m.value)
    ensures ',' !in r.raw && ',' !in r.unitValue
    ensures r.key == Strip(m.name)
    ensures m.unit.Some? ==> r.unit == Strip(m.unit.value)
    ensures r.unit == "" <==> m.unit.None?
    ensures '#' !in r.key
    ensures r.key == "" || (!IsSpace(r.key[0]) && !IsSpace(r.key[|r.key| - 1]))
  {
    NumberTextUnspaced(m.count);
    NumberTextUnspaced(m.value);
    var unit := if m.unit.Some? then Strip(m.unit.value) else "";
    assert m.unit.Some? ==> unit != "" by {
      if m.unit.Some? {
        assert !IsSpace(m.unit.value[0]);
      }
    }
    var raw, unitValue, key := Strip(RemoveCommas(m.count)), Strip(RemoveCommas(m.value)), Strip(m.name);
    assert '#' !in m.name;
    CounterReading(key, raw, unitValue, unit)
  }

  /** A number matched by `[\d,.]+` holds no whitespace, so `strip()` after
      removing its commas changes nothing. */
  lemma NumberTextUnspaced(s: string)
    requires All(s, IsNumChar)
    ensures Strip(RemoveCommas(s)) == RemoveCommas(s)
  {
    var t := RemoveCommas(s);
    if t != "" {
      assert t[0] in t && t[|t| - 1] in t;
      assert forall c :: c in s ==> IsNumChar(c);
    }
    StripUnspaced(t);
  }

  /** cpu/schbench.py:140-144: the counter's fields get `"raw"`, then the
      unit's value when there is a unit; every other counter keeps its
      fields. */
  function Record(results: map<string, map<string, string>>, rd: CounterReading): (r: map<string, map<string, string>>)
    ensures r.Keys == results.Keys + {rd.key}
    ensures forall k :: k in results && k != rd.key ==> r[k] == results[k]
    ensures var before := if rd.key in results then results[rd.key] else map[];
      && r[rd.key].Keys == before.Keys + {RawField} + (if rd.unit != "" then {rd.unit} else {})
      && r[rd.key][RawField] == (if rd.unit == RawField then rd.unitValue else rd.raw)
      && (rd.unit != "" ==> rd.unit in r[rd.key] && r[rd.key][rd.unit] == rd.unitValue)
      && forall f :: f in before && f != RawField && f != rd.unit ==> r[rd.key][f] == before[f]
  {
    var fields := (if rd.key in results then results[rd.key] else map[])[RawField := rd.raw];
    var fields := if rd.unit != "" then fields[rd.unit := rd.unitValue] else fields;
    results[rd.key := fields]
  }

  /** The loop state: `results` and `in_performance_stats`. */
  datatype PerfState = PerfState(results: map<string, map<string, string>>, inStats: bool)

  const PerfInitial := PerfState(map[], false)

  /** Every recorded counter has a `raw` field, and its name holds no `#`
      and no surrounding whitespace. */
  predicate WellFormedCounters(results: map<string, map<string, string>>) {
    forall k :: k in results ==>
      && RawField in results[k] && '#' !in k
      && (k == "" || (!IsSpace(k[0]) && !IsSpace(k[|k| - 1])))
  }

  /** One iteration of `for line in data` (cpu/schbench.py:126-143). Once on,
      collection stays on, and until the marker line nothing changes. */
  function PerfStep(st: PerfState, line: string): (r: PerfState)
    ensures st.inStats ==> r.inStats
    ensures !st.inStats && !Contains(line, StatsMarker) ==> r == st
  {
    if Contains(line, StatsMarker) then PerfState(st.results, true)
    else if st.inStats && !Blank(line) then
      match ScanPerf(line)
      case Some(m) => PerfState(Record(st.results, Reading(m)), st.inStats)
      case None => st
    else st
  }

  /** The loop from state `st` over `lines`. */
  function PerfFold(st: PerfState, lines: seq<string>): PerfState
    decreases |lines|
  {
    if lines == [] then st else PerfFold(PerfStep(st, lines[0]), lines[1..])
  }

  /** What `parse_perf_data(data)` returns: every counter in it has a `raw`
      field and a stripped name without `#`. */
  function ParsePerfDataSpec(data: seq<string>): (r: map<string, map<string, string>>)
    ensures WellFormedCounters(r)
  {
    PerfFoldWellFormed(PerfInitial, data);
    PerfFold(PerfInitial, data).results
  }

  /** `parse_perf_data`, as the source writes it. */
  method ParsePerfData(data: seq<string>) returns (results: map<string, map<string, string>>)
    ensures results == ParsePerfDataSpec(data)
  {
    results := map[];
    var inPerformanceStats := false;
    var i := 0;
    while i < |data|
      invariant 0 <= i <= |data|
      invariant PerfFold(PerfState(results, inPerformanceStats), data[i..]) == PerfFold(PerfInitial, data)
    {
      var line := data[i];
      ghost var st := PerfState(results, inPerformanceStats);
      assert data[i..][0] == line && data[i..][1..] == data[i + 1..];
      assert PerfFold(st, data[i..]) == PerfFold(PerfStep(st, line), data[i + 1..]);
      i := i + 1;
      if Contains(line, StatsMarker) {
        inPerformanceStats := true;
        continue;
      }
      var stripped := Strip(line);
      if inPerformanceStats && stripped != "" {
        var match_ := ScanPerf(line);
        if match_.Some? {
          var rd := Reading(match_.value);
          var fields := if rd.key in results then results[rd.key] else map[];
          fields := fields[RawField := rd.raw];
          if rd.unit != "" {
            fields := fields[rd.unit := rd.unitValue];
          }
          results := results[rd.key := fields];
          MatchedStep(st, line, match_.value);
        } else {
          UnmatchedStep(st, line);
        }
      }
    }
    assert data[i..] == [];
  }

  // ---------------------------------------------------------------------------
  // What one line does.

  /** The marker line turns collection on and is not itself parsed. */
  lemma MarkerStep(st: PerfState, line: string)
    requires Contains(line, StatsMarker)
    ensures PerfStep(st, line) == PerfState(st.results, true)
  {
  }

  /** A counter line after the marker records its reading. */
  lemma MatchedStep(st: PerfState, line: string, m: PerfMatch)
    requires !Contains(line, StatsMarker) && st.inStats && ScanPerf(line) == Some(m)
    ensures PerfStep(st, line) == PerfState(Record(st.results, Reading(m)), true)
  {
    PerfLineNotBlank(m);
  }

  /** After the marker, a counter line stores group 1 without its commas as
      `raw` of the counter named by group 2 stripped (unless the unit is itself
      `raw`), and group 3 without its commas under the stripped unit. Every
      other counter is unchanged. */
  lemma CounterLineRecorded(st: PerfState, m: PerfMatch)
    requires st.inStats && ValidPerf(m) && !Contains(PerfText(m), StatsMarker)
    ensures var r := PerfStep(st, PerfText(m));
      var key := Strip(m.name);
      && r.inStats
      && key in r.results && RawField in r.results[key]
      && (m.unit.None? || Strip(m.unit.value) != RawField ==> r.results[key][RawField] == RemoveCommas(m.count))
      && (m.unit.Some? ==> Strip(m.unit.value) in r.results[key] && r.results[key][Strip(m.unit.value)] == RemoveCommas(m.value))
      && forall k :: k in st.results && k != key ==> k in r.results && r.results[k] == st.results[k]
  {
    var line := PerfText(m);
    PerfRoundTrip(m);
    MatchedStep(st, line, m);
    var rd := Reading(m);
    assert PerfStep(st, line).results == Record(st.results, rd);
    RecordedFields(st.results, rd);
  }

  /** What `Record` stores, field by field. */
  lemma RecordedFields(results: map<string, map<string, string>>, rd: CounterReading)
    ensures var r := Record(results, rd);
      && rd.key in r && RawField in r[rd.key]
      && (rd.unit != RawField ==> r[rd.key][RawField] == rd.raw)
      && (rd.unit != "" ==> rd.unit in r[rd.key] && r[rd.key][rd.unit] == rd.unitValue)
      && forall k :: k in results && k != rd.key ==> k in r && r[k] == results[k]
  {
  }

  /** Any other line changes nothing. */
  lemma UnmatchedStep(st: PerfState, line: string)
    requires !Contains(line, StatsMarker)
    requires !st.inStats || Blank(line) || ScanPerf(line).None?
    ensures PerfStep(st, line) == st
  {
  }

  /** A counter line has a digit, so it is never blank. */
  lemma PerfLineNotBlank(m: PerfMatch)
    requires ValidPerf(m)
    ensures !Blank(PerfText(m))
  {
    var rest := NameText(m.sep1, m.name, m.sep2, ValueText(m.sep3, m.value, m.sep4, m.unit, m.rest));
    assert PerfText(m) == m.lead + (m.count + rest);
    assert PerfText(m)[|m.lead|] == m.count[0];
    assert IsNumChar(m.count[0]);
    assert !IsSpace(PerfText(m)[|m.lead|]);
  }

  // ---------------------------------------------------------------------------
  // What the whole pass does.

  /** Before the marker no line is parsed. */
  lemma {:induction false} NoMarkerNoChange(st: PerfState, lines: seq<string>)
    requires !st.inStats
    requires forall i :: 0 <= i < |lines| ==> !Contains(lines[i], StatsMarker)
    ensures PerfFold(st, lines) == st
    decreases |lines|
  {
    if lines != [] {
      UnmatchedStep(st, lines[0]);
      NoMarkerNoChange(st, lines[1..]);
    }
  }

  /** Output in which perf printed no statistics yields no counters. */
  lemma NoMarkerNoCounters(data: seq<string>)
    requires forall i :: 0 <= i < |data| ==> !Contains(data[i], StatsMarker)
    ensures ParsePerfDataSpec(data) == map[]
  {
    NoMarkerNoChange(PerfInitial, data);
  }

  lemma {:induction false} PerfFoldAppend(st: PerfState, a: seq<string>, b: seq<string>)
    ensures PerfFold(st, a + b) == PerfFold(PerfFold(st, a), b)
    decreases |a|
  {
    if a == [] {
      assert a + b == b;
    } else {
      assert (a + b)[0] == a[0] && (a + b)[1..] == a[1..] + b;
      PerfFoldAppend(PerfStep(st, a[0]), a[1..], b);
    }
  }

  /** Whatever comes before the marker line is ignored: parsing starts afresh
      after it. */
  lemma PrefixBeforeMarkerIgnored(prefix: seq<string>, marker: string, rest: seq<string>)
    requires forall i :: 0 <= i < |prefix| ==> !Contains(prefix[i], StatsMarker)
    requires Contains(marker, StatsMarker)
    ensures ParsePerfDataSpec(prefix + [marker] + rest) == PerfFold(PerfState(map[], true), rest).results
  {
    NoMarkerNoChange(PerfInitial, prefix);
    PerfFoldAppend(PerfInitial, prefix, [marker] + rest);
    assert prefix + [marker] + rest == prefix + ([marker] + rest);
    assert ([marker] + rest)[0] == marker && ([marker] + rest)[1..] == rest;
  }

  /** `r` keeps every counter of `st` and every field of each counter. */
  predicate KeepsCounters(st: PerfState, r: PerfState) {
    forall k :: k in st.results ==> k in r.results && st.results[k].Keys <= r.results[k].Keys
  }

  lemma {:induction false} PerfFoldKeeps(st: PerfState, lines: seq<string>)
    ensures KeepsCounters(st, PerfFold(st, lines))
    decreases |lines|
  {
    if lines != [] {
      var st1 := PerfStep(st, lines[0]);
      assert KeepsCounters(st, st1);
      PerfFoldKeeps(st1, lines[1..]);
    }
  }

  /** Once collection is on it stays on. */
  lemma {:induction false} PerfFoldStaysInStats(st: PerfState, lines: seq<string>)
    requires st.inStats
    ensures PerfFold(st, lines).inStats
    decreases |lines|
  {
    if lines != [] {
      PerfFoldStaysInStats(PerfStep(st, lines[0]), lines[1..]);
    }
  }

  /** Recording a reading keeps every counter well formed. */
  lemma RecordWellFormed(results: map<string, map<string, string>>, rd: CounterReading)
    requires WellFormedCounters(results)
    requires '#' !in rd.key && (rd.key == "" || (!IsSpace(rd.key[0]) && !IsSpace(rd.key[|rd.key| - 1])))
    ensures WellFormedCounters(Record(results, rd))
  {
    var r := Record(results, rd);
    forall k | k in r
      ensures RawField in r[k]
    {
      if k != rd.key {
        assert r[k] == results[k];
      }
    }
  }

  /** One line keeps every counter well formed. */
  lemma PerfStepWellFormed(st: PerfState, line: string)
    requires WellFormedCounters(st.results)
    ensures WellFormedCounters(PerfStep(st, line).results)
  {
    if !Contains(line, StatsMarker) && st.inStats && !Blank(line) {
      match ScanPerf(line)
      case Some(m) =>
        RecordWellFormed(st.results, Reading(m));
      case None =>
    }
  }

  /** The loop keeps every counter well formed. */
  lemma {:induction false} PerfFoldWellFormed(st: PerfState, lines: seq<string>)
    requires WellFormedCounters(st.results)
    ensures WellFormedCounters(PerfFold(st, lines).results)
    decreases |lines|
  {
    if lines != [] {
      PerfStepWellFormed(st, lines[0]);
      PerfFoldWellFormed(PerfStep(st, lines[0]), lines[1..]);
    }
  }
}
