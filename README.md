# schbench result parsing, modelled in Dafny

The avocado `schbench` test (`cpu/schbench.py`) runs the schbench scheduler
benchmark and turns its standard-error text into a JSON result. This project
models the four parts of that test that compute something:

* `parse_data`. One pass over the stderr lines, which tracks the current
  latency category: Wakeup, Request or RPS percentiles. It collects each
  category's percentile lines (`50.0th: 7 (1234 samples)`) and its
  `min=..., max=...` line, plus the top-level `average rps:` value.
* `parse_perf_data`. After the line `Performance counter stats`, it records
  each `perf stat` counter line as the counter's raw count. When perf printed
  a derived metric, it also records the metric's value under the metric's
  unit.
* How `test` builds the schbench argument string from its twelve parameters
  and wraps it in `perf stat` and `taskset -c`.
* The merge in `test`, where `result.update(...)` merges the perf counters
  into the parsed results.

The model follows the code where the code is surprising:

* At cpu/schbench.py:87 the `else:` belongs to the `if` inside the loop over
  the category names, not to the `for`. So for a line with no header, the
  data branch runs once for each of the three names, and a percentile line
  is appended three times. A header line first runs the data branch for each
  name before the one it contains (`ScanCategories`). The model does exactly
  this, and `PercentileLineAppendsThrice` states the consequence.
* Min/max lines and `average rps` lines also run three times. Those updates
  are idempotent: `MinMaxLineSets` and `AverageRpsLineSets` show that one
  update has the same effect.
* Every percentile block found in the input is kept. The code has no rule
  that keeps only the blocks after the last Wakeup header.
* A line that contains `min=` but fails the min/max pattern is not tried as
  an `average rps` line (`UnmatchedMinLineIgnored`).
* The three regular expressions of `parse_data` and the counter pattern of
  `parse_perf_data` (cpu/schbench.py:91, 105, 113, 131) are modelled as scan
  functions. Each has a match datatype that gives the text of every group.
  Each scanner's contract says that a match it returns rebuilds the line. A
  round-trip lemma says that every well-formed match is the one the scanner
  finds; for the counter pattern this includes the backtracking of `re`
  between the two whitespace items around the counter name.
* `\s` and `str.strip()` use Python's `str.isspace()` set, and `\d` is the
  ASCII digits.

Modules:

* `Text` (text.dfy): character classes, greedy runs, `strip()`,
  `replace(',', '')`, `str(int)` and the words of a shell command.
* `Patterns` (patterns.dfy): the regular expressions.
* `BenchParser` (bench_parser.dfy): `parse_data`.
* `PerfParser` (perf_parser.dfy): `parse_perf_data`.
* `SchbenchTest` (schbench_test.dfy): `test`.

Each loop the source writes is a method with a `while` loop. The method is
proved equal to a specification function (`ParseDataSpec`,
`ParsePerfDataSpec`), and the behavioural lemmas are proved about that
function.

## Model

| member | source | states |
|---|---|---|
| BenchParser.ParseData | cpu/schbench.py:65-117 | The loop over lines returns exactly `ParseDataSpec(data)`, the left fold of `LineStep` from the empty dictionary with no current category. |
| BenchParser.ParseLine | cpu/schbench.py:78-116 | One iteration of the outer loop: the inner loop over the category names leaves the state that `LineStep` gives. |
| BenchParser.ApplyDataLine | cpu/schbench.py:89-116 | The body of the `else:` branch changes the state as `DataLine` says. |
| BenchParser.ParseDataSpec | cpu/schbench.py:65-117 | Only the three category keys and `"average_rps"` occur in the result: a block under each category key and a number under `"average_rps"`. |
| BenchParser.ScanCategories | cpu/schbench.py:71-87 | The inner loop from position `j` over `category_mapping`, whose entries are, in order, the Wakeup, Request and RPS header texts, each mapped to itself. It keeps the loop invariant `Valid`. Its behaviour is stated by `NonHeaderLineStep`, `WakeupHeaderLine`, `RequestHeaderLine`, `RpsHeaderLine` and `ScanCategoriesExtends`. |
| BenchParser.LineStep | cpu/schbench.py:78-116 | One outer iteration keeps `Valid`; `ScanCategoriesExtends` and the line lemmas below say what it does to each kind of line. |
| BenchParser.Fold | cpu/schbench.py:77 | The loop over the lines keeps `Valid`; `FoldUnfold`, `FoldAppend`, `FoldExtends` and `NoHeaderFold` describe it. |
| BenchParser.EntryOf | cpu/schbench.py:94-100 | The entry takes latency and samples from groups 3 and 4, and its percentile is the group 2 text, which scans back to the same whole and fractional digit runs. `StarMarkerIgnored` shows that group 1 plays no part. |
| BenchParser.EnterCategory | cpu/schbench.py:79-86 | A header makes its key current. It adds an empty block only when the key is new (`setdefault`), and every existing entry is kept. |
| BenchParser.AppendEntry | cpu/schbench.py:93-102 | The entry is appended at the end of the current category's list. Its min/max and every other key are unchanged. |
| BenchParser.SetMinMax | cpu/schbench.py:103-110 | `min` and `max` of the current category are overwritten. Its other min/max fields, its list and every other key are unchanged. |
| BenchParser.SetAverageRps | cpu/schbench.py:111-116 | `"average_rps"` is set at the top level, whatever the current category; every other key is unchanged. |
| BenchParser.DataLine | cpu/schbench.py:89-116 | The data branch never changes the current category. It adds no key except `"average_rps"`, changes no category but the current one, and only appends to percentile lists. |
| BenchParser.DataLineIgnored | cpu/schbench.py:89 | With no current category, or on a line that `strip()` empties, nothing changes. |
| BenchParser.DataLinePercentile | cpu/schbench.py:89-102 | Under a category, any line that matches the percentile pattern (such a line is never blank) appends the entry built from groups 2-4. |
| BenchParser.DataLineMinMax | cpu/schbench.py:89-110 | Under a category, any line that matches the min/max pattern sets `min` and `max`. Such a line is non-blank, is not a percentile line and contains `min=`, so it reaches that branch. |
| BenchParser.DataLineMinUnmatched | cpu/schbench.py:103-106 | A non-percentile line with `min=` that fails the pattern changes nothing; the `average rps` branch is not reached. |
| BenchParser.DataLineAverageRps | cpu/schbench.py:89-116 | Under a category, a line without `min=` that matches the average pattern sets `"average_rps"` to group 1. Such a line is non-blank, is not a percentile line and contains `average rps:`. |
| BenchParser.DataLineOther | cpu/schbench.py:93-116 | A line that none of the three branches accepts changes nothing. |
| BenchParser.FoldUnfold | cpu/schbench.py:77 | The pass over a non-empty list is one line step followed by the pass over the rest. |
| BenchParser.NotBlank | cpu/schbench.py:89 | A line with a digit in it is not emptied by `strip()`. |
| BenchParser.PercentileTextNotBlank | cpu/schbench.py:89-91 | The text of any percentile match survives `strip()`. |
| BenchParser.PercentileLineNotBlank | cpu/schbench.py:89-93 | A line that the percentile pattern matches passes the `line.strip()` test. |
| BenchParser.MinMaxLineContainsMin | cpu/schbench.py:103-106 | A line that the min/max pattern matches is non-blank and contains `min=`, so it reaches that branch. |
| BenchParser.AverageRpsLineNotBlank | cpu/schbench.py:111-113 | A line that the average pattern matches is non-blank. |
| BenchParser.NonHeaderLineStep | cpu/schbench.py:78-89 | A line with no header runs the data branch three times, once per category name. |
| BenchParser.WakeupHeaderLine | cpu/schbench.py:78-86 | A line with the Wakeup header enters that category and runs no data branch. |
| BenchParser.RequestHeaderLine | cpu/schbench.py:78-87 | A line with the Request header but not the Wakeup header runs the data branch once and then enters the Request category. |
| BenchParser.RpsHeaderLine | cpu/schbench.py:78-87 | A line with only the RPS header runs the data branch twice and then enters the RPS category. |
| BenchParser.NoCategoryLineIgnored | cpu/schbench.py:68-89 | Before any header, a non-header line leaves the state as it was. |
| BenchParser.AppendEntryThrice | cpu/schbench.py:101-102 | Three appends of the same entry add it three times at the end of the current list and change nothing else. |
| BenchParser.PercentileLineStep | cpu/schbench.py:78-102 | A percentile line under a category is three appends of its entry. |
| BenchParser.PercentileLineAppendsThrice | cpu/schbench.py:78-102 | A percentile line under a category appends its entry three times to that category's list; the rest of the state is unchanged. |
| BenchParser.StarMarkerIgnored | cpu/schbench.py:91-100 | A percentile line marked with `*` has the same effect as the same line without the marker: group 1 is discarded. |
| BenchParser.SetMinMaxIdempotent | cpu/schbench.py:107-110 | Setting the same `min` and `max` twice is the same as setting them once. |
| BenchParser.MinMaxLineStep | cpu/schbench.py:78-110 | A min/max line under a category is three min/max updates. |
| BenchParser.MinMaxLineSets | cpu/schbench.py:78-110 | A min/max line under a category sets that category's `min` and `max` once; its percentile list and every other key are unchanged. |
| BenchParser.UnmatchedMinLineIgnored | cpu/schbench.py:78-106 | A non-header line with `min=` that fails the min/max pattern leaves the state as it was. |
| BenchParser.SetAverageRpsIdempotent | cpu/schbench.py:115-116 | Setting `"average_rps"` twice to the same value is setting it once. |
| BenchParser.AverageRpsLineStep | cpu/schbench.py:78-116 | An average line under a category is three average updates. |
| BenchParser.AverageRpsLineSets | cpu/schbench.py:78-116 | An average line under a category sets `"average_rps"`, replacing an earlier value, and changes nothing else. |
| BenchParser.ExtendsTrans | cpu/schbench.py:77-116 | "Keeps every key, and every category list grows only at its end" is transitive. |
| BenchParser.ScanCategoriesExtends | cpu/schbench.py:78-116 | One line keeps every key, and every category list grows only at its end. |
| BenchParser.FoldExtends | cpu/schbench.py:77-116 | A category, once entered, stays in the result, and later lines never remove or reorder its entries. |
| BenchParser.FoldAppend | cpu/schbench.py:77 | The pass over `a + b` is the pass over `a` continued over `b`. |
| BenchParser.NoHeaderNoResults | cpu/schbench.py:65-117 | Input without a header line parses to the empty dictionary. |
| BenchParser.NoHeaderFold | cpu/schbench.py:77-89 | Without header lines the pass leaves the initial state unchanged. |
| Patterns.ScanDecimal | cpu/schbench.py:91 | `\d+\.\d+`: a match returns the whole and fractional digit runs, and together with the rest they rebuild the text. |
| Patterns.DecimalRoundTrip | cpu/schbench.py:91-113 | Every digit-dot-digit text followed by a non-digit is scanned back into its parts. |
| Patterns.ScanTail | cpu/schbench.py:91 | `(\d+)\s+\((\d+) samples\)`: a match returns the runs of the right classes, and they rebuild the text. |
| Patterns.TailRoundTrip | cpu/schbench.py:91 | Every well-formed tail is scanned back into its parts. |
| Patterns.ScanMarker | cpu/schbench.py:91 | `\s*(\*?)\s*` always matches: whitespace, an optional `*`, whitespace, and a rest that starts with a non-space. |
| Patterns.MarkerRoundTrip | cpu/schbench.py:91 | The marker prefix of any line that continues with a digit is scanned back into its parts. |
| Patterns.ScanPercentile | cpu/schbench.py:90-92 | A percentile match is well-formed and rebuilds the line. |
| Patterns.PercentileRoundTrip | cpu/schbench.py:90-92 | The text of every well-formed percentile match is matched back to exactly that match. |
| Patterns.ScanMinMax | cpu/schbench.py:104-105 | A min/max match is well-formed (greedy digit runs) and rebuilds the line. |
| Patterns.MinMaxRoundTrip | cpu/schbench.py:104-105 | The text of every well-formed min/max match is matched back to it. |
| Patterns.ScanAverageRps | cpu/schbench.py:112-113 | An average match is well-formed and rebuilds the line. |
| Patterns.AverageRpsRoundTrip | cpu/schbench.py:112-113 | The text of every well-formed average match is matched back to it. |
| Patterns.PercentileStart | cpu/schbench.py:91 | A percentile line is whitespace followed by `*` or a digit. |
| Patterns.MinMaxStart | cpu/schbench.py:105 | A min/max line is its leading whitespace followed by `m`. |
| Patterns.AverageStart | cpu/schbench.py:113 | An average line starts with `a`. |
| Patterns.MinMaxIsNotPercentile | cpu/schbench.py:90-105 | No line matches both the min/max pattern and the percentile pattern. |
| Patterns.AverageIsNotPercentile | cpu/schbench.py:90-113 | No line matches both the average pattern and the percentile pattern. |
| Patterns.SplitRegion | cpu/schbench.py:131 | The division that `re` makes of `\s+([^#]+)\s+` before the `#`: one trailing blank for the second `\s+`, and the first `\s+` gives way only to keep the name non-empty. |
| Patterns.ScanName | cpu/schbench.py:131 | A match of `\s+([^#]+)\s+#` divides the text as `re` does, and the parts rebuild it. |
| Patterns.SplitRegionOf | cpu/schbench.py:131 | Every well-formed division of a region is the one `SplitRegion` chooses. |
| Patterns.NameRoundTrip | cpu/schbench.py:131 | Every well-formed name part is scanned back into its parts. |
| Patterns.ScanValue | cpu/schbench.py:131 | `\s*([\d,.]+)\s*([^#]+)?`: greedy items, with the unit absent exactly when nothing non-`#` follows. The parts rebuild the text. |
| Patterns.ValueRoundTrip | cpu/schbench.py:131 | Every well-formed value part is scanned back into its parts. |
| Patterns.ScanPerf | cpu/schbench.py:130-132 | A counter match is well-formed and rebuilds the line. |
| Patterns.PerfRoundTrip | cpu/schbench.py:130-132 | The text of every well-formed counter match is matched back to exactly that match. |
| PerfParser.ParsePerfData | cpu/schbench.py:119-144 | The loop, with its `continue`, returns exactly `ParsePerfDataSpec(data)`, the left fold of `PerfStep`. |
| PerfParser.Reading | cpu/schbench.py:134-137 | `raw` is group 1 with its commas removed and `unitValue` is group 3 with its commas removed; `strip()` leaves both unchanged. The key is group 2 stripped, so it has no `#` and no surrounding whitespace. When group 4 took part, the unit is group 4 stripped, and the unit is empty exactly when group 4 did not take part. |
| PerfParser.NumberTextUnspaced | cpu/schbench.py:134-136 | A `[\d,.]+` text without its commas is left unchanged by `strip()`. |
| PerfParser.CounterLineRecorded | cpu/schbench.py:129-142 | After the marker, the line of a well-formed counter match records the counter under its stripped name. Its `raw` field is group 1 without commas, unless the unit is itself `raw`. When there is a unit, the unit's field holds group 3 without commas. Every other counter is kept. |
| PerfParser.RecordedFields | cpu/schbench.py:138-142 | After recording, the counter exists with a `raw` field. That field holds the count unless the unit is `raw`, and a non-empty unit holds the unit value. Other counters are unchanged. |
| PerfParser.PerfStep | cpu/schbench.py:126-142 | Once collection is on it stays on, and before the marker a line that is not the marker changes nothing. `MarkerStep`, `MatchedStep`, `UnmatchedStep`, `CounterLineRecorded` and `PerfStepWellFormed` state the rest. |
| PerfParser.PerfFold | cpu/schbench.py:125-143 | The loop over the lines. `PerfFoldAppend`, `NoMarkerNoChange`, `PerfFoldKeeps`, `PerfFoldStaysInStats` and `PerfFoldWellFormed` describe it. |
| PerfParser.ParsePerfDataSpec | cpu/schbench.py:119-144 | Every counter in the result has a `raw` field, and its name has no `#` and no surrounding whitespace. |
| PerfParser.RecordWellFormed | cpu/schbench.py:138-142 | Recording a reading whose key has no `#` and no surrounding whitespace keeps every counter well formed. |
| PerfParser.PerfStepWellFormed | cpu/schbench.py:126-142 | One line keeps every counter well formed. |
| PerfParser.PerfFoldWellFormed | cpu/schbench.py:125-143 | The whole loop keeps every counter well formed. |
| PerfParser.Record | cpu/schbench.py:138-142 | The counter's entry exists afterwards (created when absent) with `raw` and, when there is a unit, the unit's value. The unit value wins when the unit is itself `raw`; other fields and other counters are kept. |
| PerfParser.MarkerStep | cpu/schbench.py:126-128 | The marker line turns collection on and is not parsed. |
| PerfParser.MatchedStep | cpu/schbench.py:129-142 | After the marker, a counter line records its reading. |
| PerfParser.UnmatchedStep | cpu/schbench.py:129-133 | Before the marker, on a blank line, or on a line that does not match, nothing changes. |
| PerfParser.PerfLineNotBlank | cpu/schbench.py:129-131 | A line that the counter pattern matches passes the `line.strip()` test. |
| PerfParser.NoMarkerNoChange | cpu/schbench.py:125-129 | Until the marker line, no line changes the state. |
| PerfParser.NoMarkerNoCounters | cpu/schbench.py:119-144 | Output without the marker line yields no counters. |
| PerfParser.PerfFoldAppend | cpu/schbench.py:125 | The pass over `a + b` is the pass over `a` continued over `b`. |
| PerfParser.PrefixBeforeMarkerIgnored | cpu/schbench.py:125-129 | Everything before the first marker line is ignored; parsing starts with collection on after it. |
| PerfParser.PerfFoldKeeps | cpu/schbench.py:138-142 | A counter, once recorded, stays, and so does each of its fields. |
| PerfParser.PerfFoldStaysInStats | cpu/schbench.py:126-128 | Once collection is on it stays on. |
| SchbenchTest.Test | cpu/schbench.py:146-200 | The command is the formatted `CommandLine`. A non-zero exit status fails with the command in the message; otherwise the result is the parsed data, merged with the perf counters exactly when `perfstat` was given. |
| SchbenchTest.MergeResults | cpu/schbench.py:199-200 | `update`: the keys are the union, every perf counter replaces an entry of the same name, and every other entry is kept. |
| SchbenchTest.TestResult | cpu/schbench.py:195-200 | The recorded result keeps every key that `parse_data` returned, and every key comes from `parse_data` or from `parse_perf_data`. `NoPerfWithoutPerfstat` and `PerfCountersOverride` say which value wins. |
| SchbenchTest.NoPerfWithoutPerfstat | cpu/schbench.py:181-200 | Without `perfstat` only the benchmark's own output is recorded. |
| SchbenchTest.PerfCountersOverride | cpu/schbench.py:197-200 | With `perfstat`, every counter is recorded and overrides a parsed entry of the same name; every other parsed entry is kept. |
| SchbenchTest.Blanks | cpu/schbench.py:171-172 | `n` blanks: the continuation indentation inside the template literal. |
| SchbenchTest.FormatArgs | cpu/schbench.py:171-173 | The formatted template ends with a blank, so the flags appended after it are separate words. `ArgsWords` gives its words. |
| SchbenchTest.JoinWordsEndsBlank | cpu/schbench.py:172-173 | A non-empty list of words joined with trailing blanks ends with a blank. |
| SchbenchTest.Args | cpu/schbench.py:171-179 | The arguments start with the formatted template and end with a blank. `ArgsWords` and `FlagsIffParams` give their words. |
| SchbenchTest.PerfPrefix | cpu/schbench.py:181-183 | The prefix is empty exactly when `perfstat` is empty. `PerfPrefixWords` gives its words. |
| SchbenchTest.TasksetPrefix | cpu/schbench.py:185-187 | The prefix is empty exactly when `taskset` is empty. `TasksetPrefixWords` gives its words. |
| SchbenchTest.ArgsWords | cpu/schbench.py:171-179 | schbench receives `-m` `-t` `-p` `-r` `-i` `-F` `-n` `-R` `-w` with their values in that order, then `-a` if `autobench`, then `-L` if `locking`. The line continuation adds blanks but no word. |
| SchbenchTest.RuntimeFillsBoth | cpu/schbench.py:171 | `runtime` is the value of both `-r` and `-i`. |
| SchbenchTest.FlagsIffParams | cpu/schbench.py:175-179 | `-a` is among the arguments exactly when `autobench` is set, and `-L` exactly when `locking` is. |
| SchbenchTest.FlagsText | cpu/schbench.py:175-179 | The two appended flags are the joined flag words. |
| SchbenchTest.CommandWords | cpu/schbench.py:181-189 | The shell sees `perf stat` and its options only when `perfstat` is set, then `taskset -c` and its CPU list only when `taskset` is set, then the schbench binary and its arguments. Empty prefixes leave only blanks. |
| SchbenchTest.CommandLine | cpu/schbench.py:189 | The `%`-formatted command. `CommandWords`, `UnprefixedCommandLine` and `DefaultCommandLine` describe it. |
| SchbenchTest.DefaultCommandWords | cpu/schbench.py:149-189 | With the defaults, the shell receives the binary, `-m 1 -t 1 -p 0 -r 5 -i 5`, `-F 256 -n 5 -R 0 -w 0` and `-L`, in that order. |
| SchbenchTest.UnprefixedCommandWords | cpu/schbench.py:181-189 | Without `perfstat` and `taskset`, the shell receives the binary and then the argument words. |
| SchbenchTest.DefaultCommandLine | cpu/schbench.py:149-189 | With the defaults, the command line is two blanks, the binary, the two template lines with the sixteen blanks of the continuation between them, and `-L `. |
| SchbenchTest.UnprefixedCommandLine | cpu/schbench.py:181-189 | Without `perfstat` and `taskset`, the command line is two blanks, the binary and the arguments. |
| SchbenchTest.LockedArgsShape | cpu/schbench.py:171-179 | With `locking` on and `autobench` off, the arguments are the template followed by `-L `. |
| SchbenchTest.DefaultNumbers | cpu/schbench.py:149-162 | `str()` of the default values 0, 1, 5 and 256. |
| SchbenchTest.DefaultFirstWords | cpu/schbench.py:149-171 | With the defaults, the first template line has the words `-m 1 -t 1 -p 0 -r 5 -i 5`. |
| SchbenchTest.DefaultSecondWords | cpu/schbench.py:149-172 | With the defaults, the second template line has the words `-F 256 -n 5 -R 0 -w 0`. |
| SchbenchTest.PerfPrefixWords | cpu/schbench.py:181-183 | The perf prefix is `perf`, `stat` and the options' words, or no word. |
| SchbenchTest.TasksetPrefixWords | cpu/schbench.py:185-187 | The taskset prefix is `taskset`, `-c` and the CPU list's words, or no word. |
| SchbenchTest.PrefixWords | cpu/schbench.py:183-187 | A two-word prefix before a non-empty value gives the two words and the value's words. |
| SchbenchTest.FirstArgWordsPlain | cpu/schbench.py:171 | Every word of the first template line is non-empty, holds no blank, and is neither `-a` nor `-L`. |
| SchbenchTest.SecondArgWordsPlain | cpu/schbench.py:172 | Every word of the second template line is non-empty, holds no blank, and is neither `-a` nor `-L`. |
| SchbenchTest.ArgWordsSolid | cpu/schbench.py:171-179 | Every argument word is non-empty and blank-free. |
| SchbenchTest.IntToStringPlain | cpu/schbench.py:171-173 | `str()` of a number is one word and never a flag. |
| SchbenchTest.JoinWordsThen | cpu/schbench.py:171-172 | Solid words joined with blanks split back into the same words. |
| SchbenchTest.BlanksThen | cpu/schbench.py:171-172 | Leading blanks add no word. |
| SchbenchTest.FourWords | cpu/schbench.py:189 | The words of four parts joined by blanks are the parts' words in order. |
| Text.Span | cpu/schbench.py:91 | A greedy run of a class: the run is all of the class, and the rest does not start with it. |
| Text.SpanConcat | cpu/schbench.py:91 | A greedy run stops exactly where the class stops. |
| Text.AfterPrefix | cpu/schbench.py:105 | Matching a literal succeeds exactly when the text starts with it, and returns what follows. |
| Text.AfterPrefixConcat | cpu/schbench.py:105 | The literal followed by `t` leaves `t`. |
| Text.Contains | cpu/schbench.py:79 | `sub in s` holds exactly when `sub` starts at some position of `s`. |
| Text.Strip | cpu/schbench.py:89 | `strip()` gives a string that is empty or starts and ends with a non-space. It is empty exactly when the input is all whitespace, and it has no character the input lacks. |
| Text.StripIsSlice | cpu/schbench.py:134-137 | `strip()` keeps one slice of the input and drops only whitespace before and after it. |
| Text.LeadingSpaceSlice | cpu/schbench.py:134 | Removing one leading space shifts the kept slice by one. |
| Text.TrailingSpaceSlice | cpu/schbench.py:134 | Removing one trailing space leaves the kept slice where it is. |
| Text.AllConcat | cpu/schbench.py:131 | A class holds on a concatenation when it holds on both parts. |
| Text.RemoveCommas | cpu/schbench.py:134-136 | `replace(',', '')` leaves no comma, keeps every other character of the input and adds none, is no longer than the input, and leaves a text without commas unchanged. |
| Text.RemoveCommasConcat | cpu/schbench.py:134-136 | Removing the commas of `a + b` is removing those of `a`, then those of `b`, so the characters kept stay in their order. |
| Text.RemoveCommasChar | cpu/schbench.py:134-136 | A single comma is removed, and any other single character is kept. With `RemoveCommasConcat` this determines the result for every input. |
| Text.StripUnspaced | cpu/schbench.py:134-137 | `strip()` leaves unchanged a text that is empty or starts and ends with a non-space. |
| Text.DigitChar | cpu/schbench.py:171-173 | A value below ten renders as a digit. |
| Text.DigitValue | cpu/schbench.py:171-173 | A digit's value renders back to that digit. |
| Text.NatToString | cpu/schbench.py:171-173 | `str()` of a natural number is a non-empty digit run without leading zeros. |
| Text.IntToString | cpu/schbench.py:171-173 | `str()` of an integer is non-empty and blank-free. A minus sign is followed by a digit. |
| Text.NatToStringValue | cpu/schbench.py:171-173 | Reading the decimal digits back gives the number. |
| Text.WordsAfterSplit | cpu/schbench.py:189 | A blank ends the word being read. |
| Text.WordsSplit | cpu/schbench.py:189 | The words of `a + " " + b` are the words of `a` followed by the words of `b`. |
| Text.WordsAfterWord | cpu/schbench.py:189 | Text without blanks extends the word being read. |
| Text.WordsOfWord | cpu/schbench.py:189 | A non-empty string without blanks is one word. |

## Left out

- `setUp` (package checks, `git` clone, `make`): it is installation, with no computation to model.
- The `self.params.get` lookups at cpu/schbench.py:165-168: the parameters arrive already resolved in `Params`. `DefaultParams` holds the defaults of lines 149-162, and the values are assumed to have the types of those defaults.
- `process.run`, `decode()` and `splitlines()`: the exit status and the stderr lines are inputs of `Test`.
- `self.fail`: it is modelled as the `Failed` outcome, which carries the message.
- `json.dumps` and writing `schbench.json` (lines 202-205): output I/O.
- `float()` at cpu/schbench.py:115: the `average rps` value stays the `\d+\.\d+` text that `float()` reads. Floating-point rounding is not modelled.
- PerfParser.Reading: groups 1 and 3 of the counter pattern are `[\d,.]+`, which also accepts texts that are not numbers, such as `1.2.3`, `..` or `,` (which becomes `float('')` once the commas are gone). For those, `float()` at cpu/schbench.py:140-142 raises `ValueError`, and `parse_perf_data` and `test` abort. The model has no such error: it records the text without its commas. For every count that is a number, the recorded text is the one `float()` reads. Floating-point rounding is not modelled.
- `\d`: it is the ASCII digits only. Python's `re` also accepts other Unicode decimal digits, which schbench and perf do not print.
- Dictionary insertion order: the results are maps, so the key order of the JSON output is not modelled.
- The alias `current_percentiles` (line 81): it always refers to `results[current_category]`, so updates through it are modelled as updates of `results` at the current key.
- BenchParser.ParseLine and BenchParser.ApplyDataLine: they are the inner loop and the `else:` body of `parse_data`, drawn out of `ParseData` as methods of their own. They take and return the loop state instead of updating it in place.
- Words: word splitting is by the ASCII blank only. Shell quoting, tabs and the shell's other metacharacters in `perfstat`, `taskset` or the work directory are not modelled.
