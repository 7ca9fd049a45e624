/** The parts of `Schbench.test` (cpu/schbench.py:146-200) that compute
    something: the schbench argument string, the shell command around it,
    and the merge of the perf counters into the parsed results. Running the
    command is outside the model: its exit status and its stderr lines are
    inputs. */
module SchbenchTest {
  import opened Text
  import opened BenchParser
  import opened PerfParser

  /** The test's parameters, after each one has been looked up in the test's
      configuration. */
  datatype Params = Params(
    perfstat: string, taskset: string, locking: bool,
    numThreads: int, numWorkers: int, cacheFootprint: int, operations: int,
    bytes: int, rps: int, runtime: int, warmuptime: int, autobench: bool)

  /** The defaults of cpu/schbench.py:149-162. */
  const DefaultParams := Params("", "", true, 1, 1, 256, 5, 0, 0, 5, 0, false)

  /** `n` blanks. */
  function Blanks(n: nat): (s: string)
    ensures |s| == n && forall i :: 0 <= i < n ==> s[i] == ' '
  {
    if n == 0 then "" else " " + Blanks(n - 1)
  }

  /** The indentation of cpu/schbench.py:172, which the backslash at the end
      of line 171 leaves inside the string literal. */
  const ContinuationIndent := Blanks(16)

  /** Each word followed by one blank. */
  function JoinWords(ws: seq<string>): string {
    if ws == [] then "" else ws[0] + " " + JoinWords(ws[1..])
  }

  lemma {:induction false} JoinWordsEndsBlank(ws: seq<string>)
    requires ws != []
    ensures var s := JoinWords(ws); |s| > 0 && s[|s| - 1] == ' '
    decreases |ws|
  {
    if ws[1..] != [] {
      JoinWordsEndsBlank(ws[1..]);
    }
  }

  /** The words of the first line of the template, with the values filled in. */
  function FirstArgWords(p: Params): seq<string> {
    ["-m", IntToString(p.numThreads), "-t", IntToString(p.numWorkers), "-p", IntToString(p.bytes),
     "-r", IntToString(p.runtime), "-i", IntToString(p.runtime)]
  }

  /** The words of the second line of the template. */
  function SecondArgWords(p: Params): seq<string> {
    ["-F", IntToString(p.cacheFootprint), "-n", IntToString(p.operations),
     "-R", IntToString(p.rps), "-w", IntToString(p.warmuptime)]
  }

  /** The template of cpu/schbench.py:171-173 after `str.format`. */
  function FormatArgs(p: Params): (r: string)
    ensures |r| > 0 && r[|r| - 1] == ' '
  {
    JoinWordsEndsBlank(SecondArgWords(p));
    JoinWords(FirstArgWords(p)) + ContinuationIndent + JoinWords(SecondArgWords(p))
  }

  /** The flags appended by cpu/schbench.py:175-179, in that order. */
  function FlagWords(p: Params): seq<string> {
    (if p.autobench then ["-a"] else []) + (if p.locking then ["-L"] else [])
  }

  /** The prefix that runs schbench under `perf stat`, or nothing. */
  function PerfPrefix(p: Params): (r: string)
    ensures r == "" <==> p.perfstat == ""
  {
    if p.perfstat != "" then "perf stat " + p.perfstat else ""
  }

  /** The prefix that pins schbench with `taskset -c`, or nothing. */
  function TasksetPrefix(p: Params): (r: string)
    ensures r == "" <==> p.taskset == ""
  {
    if p.taskset != "" then "taskset -c " + p.taskset else ""
  }

  /** `args` once cpu/schbench.py:175-179 have appended the flags. */
  function Args(p: Params): (r: string)
    ensures FormatArgs(p) <= r && r[|r| - 1] == ' '
  {
    FormatArgs(p) + (if p.autobench then "-a " else "") + (if p.locking then "-L " else "")
  }

  /** The string that cpu/schbench.py:189 hands to the shell. */
  function CommandLine(p: Params, workdir: string): string {
    PerfPrefix(p) + " " + TasksetPrefix(p) + " " + workdir + "/schbench " + Args(p)
  }

  /** `result.update(perf)`: the perf counters are added, replacing any
      entry of the same name; every other entry is kept. */
  function MergeResults(result: map<string, Value>, perf: map<string, map<string, string>>): (r: map<string, Value>)
    ensures r.Keys == result.Keys + perf.Keys
    ensures forall k :: k in perf ==> r[k] == Counter(perf[k])
    ensures forall k :: k in result && k !in perf ==> r[k] == result[k]
  {
    result + map k | k in perf :: Counter(perf[k])
  }

  /** What the test records from a run whose stderr is `lines`. */
  function TestResult(p: Params, lines: seq<string>): (r: map<string, Value>)
    ensures ParseDataSpec(lines).Keys <= r.Keys
    ensures forall k :: k in r ==> k in ParseDataSpec(lines) || k in ParsePerfDataSpec(lines)
  {
    var result := ParseDataSpec(lines);
    if PerfPrefix(p) != "" then MergeResults(result, ParsePerfDataSpec(lines)) else result
  }

  /** How the test ends: `self.fail` with the command, or the results. */
  datatype Outcome = Failed(message: string) | Passed(result: map<string, Value>)

  const FailurePrefix := "The test failed. Failed command is "

  /** `test`, as the source writes it, from the resolved parameters to the
      results it would write out. */
  method Test(p: Params, workdir: string, exitStatus: int, stderrLines: seq<string>)
    returns (cmd: string, outcome: Outcome)
    ensures cmd == CommandLine(p, workdir)
    ensures exitStatus != 0 ==> outcome == Failed(FailurePrefix + cmd)
    ensures exitStatus == 0 ==> outcome == Passed(TestResult(p, stderrLines))
  {
    var args := FormatArgs(p);
    if p.autobench {
      args := args + "-a ";
    }
    if p.locking {
      args := args + "-L ";
    }
    var perfstat := p.perfstat;
    if perfstat != "" {
      perfstat := "perf stat " + perfstat;
    }
    var taskset := p.taskset;
    if p.taskset != "" {
      taskset := "taskset -c " + taskset;
    }
    cmd := perfstat + " " + taskset + " " + workdir + "/schbench " + args;
    assert args == Args(p);
    if exitStatus != 0 {
      outcome := Failed(FailurePrefix + cmd);
      return;
    }
    var result := ParseData(stderrLines);
    if perfstat != "" {
      var perfResult := ParsePerfData(stderrLines);
      result := MergeResults(result, perfResult);
    }
    outcome := Passed(result);
  }

  // ---------------------------------------------------------------------------
  // The words the shell sees.

  /** Words that are non-empty and hold no blank. */
  predicate Solid(ws: seq<string>) {
    forall i :: 0 <= i < |ws| ==> ws[i] != "" && ' ' !in ws[i]
  }

  lemma {:induction false} JoinWordsThen(ws: seq<string>, s: string)
    requires Solid(ws)
    ensures Words(JoinWords(ws) + s) == ws + Words(s)
    decreases |ws|
  {
    if ws == [] {
      assert JoinWords(ws) + s == s;
    } else {
      var tail := JoinWords(ws[1..]) + s;
      assert JoinWords(ws) + s == ws[0] + " " + tail;
      WordsSplit(ws[0], tail);
      WordsOfWord(ws[0]);
      JoinWordsThen(ws[1..], s);
      assert ws == [ws[0]] + ws[1..];
    }
  }

  lemma {:induction false} BlanksThen(n: nat, s: string)
    ensures Words(Blanks(n) + s) == Words(s)
    decreases n
  {
    if n == 0 {
      assert Blanks(n) + s == s;
    } else {
      assert Blanks(n) + s == "" + " " + (Blanks(n - 1) + s);
      WordsSplit("", Blanks(n - 1) + s);
      BlanksThen(n - 1, s);
    }
  }

  /** A word that is neither empty nor holds a blank, and is not one of the
      flags `-a` and `-L`. */
  predicate PlainWord(w: string) {
    w != "" && ' ' !in w && w != "-a" && w != "-L"
  }

  predicate Plain(ws: seq<string>) {
    forall i :: 0 <= i < |ws| ==> PlainWord(ws[i])
  }

  lemma IntToStringPlain(n: int)
    ensures PlainWord(IntToString(n))
  {
  }

  lemma ArgWordsSolid(p: Params)
    ensures Solid(FirstArgWords(p)) && Solid(SecondArgWords(p)) && Solid(FlagWords(p))
  {
    FirstArgWordsPlain(p);
    SecondArgWordsPlain(p);
  }

  lemma FirstArgWordsPlain(p: Params)
    ensures Plain(FirstArgWords(p))
  {
    var ws := FirstArgWords(p);
    assert PlainWord(ws[0]) && PlainWord(ws[2]) && PlainWord(ws[4]) && PlainWord(ws[6]) && PlainWord(ws[8]);
    IntToStringPlain(p.numThreads);
    IntToStringPlain(p.numWorkers);
    IntToStringPlain(p.bytes);
    IntToStringPlain(p.runtime);
  }

  lemma SecondArgWordsPlain(p: Params)
    ensures Plain(SecondArgWords(p))
  {
    var ws := SecondArgWords(p);
    assert PlainWord(ws[0]) && PlainWord(ws[2]) && PlainWord(ws[4]) && PlainWord(ws[6]);
    IntToStringPlain(p.cacheFootprint);
    IntToStringPlain(p.operations);
    IntToStringPlain(p.rps);
    IntToStringPlain(p.warmuptime);
  }

  /** The arguments schbench receives: the ten words of the first template
      line, the eight of the second, then `-a` if `autobench` and `-L` if
      `locking`. The line continuation adds blanks but no word. */
  lemma ArgsWords(p: Params)
    ensures Words(Args(p)) == FirstArgWords(p) + SecondArgWords(p) + FlagWords(p)
  {
    var flags := (if p.autobench then "-a " else "") + (if p.locking then "-L " else "");
    var second := JoinWords(SecondArgWords(p)) + flags;
    ArgWordsSolid(p);
    FlagsText(p);
    JoinWordsThen(FlagWords(p), "");
    JoinWordsThen(SecondArgWords(p), flags);
    BlanksThen(16, second);
    JoinWordsThen(FirstArgWords(p), ContinuationIndent + second);
    ArgsShape(JoinWords(FirstArgWords(p)), ContinuationIndent, JoinWords(SecondArgWords(p)),
      if p.autobench then "-a " else "", if p.locking then "-L " else "");
  }

  /** Regrouping of the concatenation, a step of `ArgsWords`. */
  lemma ArgsShape(first: string, indent: string, second: string, a: string, l: string)
    ensures first + indent + second + a + l == first + (indent + (second + (a + l)))
  {
  }

  lemma FlagsText(p: Params)
    ensures (if p.autobench then "-a " else "") + (if p.locking then "-L " else "") == JoinWords(FlagWords(p)) + ""
  {
    assert JoinWords(["-a"]) == "-a ";
    assert JoinWords(["-L"]) == "-L ";
    if p.autobench && p.locking {
      assert FlagWords(p) == ["-a", "-L"];
      assert FlagWords(p)[1..] == ["-L"];
    }
  }

  /** `runtime` is the value of both `-r` and `-i`. */
  lemma RuntimeFillsBoth(p: Params)
    ensures var ws := FirstArgWords(p) + SecondArgWords(p) + FlagWords(p);
      ws[6] == "-r" && ws[7] == IntToString(p.runtime) && ws[8] == "-i" && ws[9] == IntToString(p.runtime)
  {
  }

  /** `-a` is passed exactly when `autobench` is set, and `-L` exactly when
      `locking` is. */
  lemma FlagsIffParams(p: Params)
    ensures var ws := FirstArgWords(p) + SecondArgWords(p) + FlagWords(p);
      && ("-a" in ws <==> p.autobench)
      && ("-L" in ws <==> p.locking)
  {
    FirstArgWordsPlain(p);
    SecondArgWordsPlain(p);
    var ws := FirstArgWords(p) + SecondArgWords(p);
    assert "-a" !in ws && "-L" !in ws;
    assert FirstArgWords(p) + SecondArgWords(p) + FlagWords(p) == ws + FlagWords(p);
  }

  /** The words of the command: `perf stat` and its options only when
      `perfstat` is set, `taskset -c` and its CPU list only when `taskset` is
      set, then the schbench binary and its arguments. */
  lemma CommandWords(p: Params, workdir: string)
    ensures Words(CommandLine(p, workdir))
      == (if p.perfstat != "" then ["perf", "stat"] + Words(p.perfstat) else [])
       + (if p.taskset != "" then ["taskset", "-c"] + Words(p.taskset) else [])
       + Words(workdir + "/schbench")
       + FirstArgWords(p) + SecondArgWords(p) + FlagWords(p)
  {
    ArgsWords(p);
    PerfPrefixWords(p);
    TasksetPrefixWords(p);
    FourWords(PerfPrefix(p), TasksetPrefix(p), workdir + "/schbench", Args(p));
    CommandLineShape(PerfPrefix(p), TasksetPrefix(p), workdir, Args(p));
  }

  /** Regrouping of the concatenation, a step of `CommandWords`. */
  lemma CommandLineShape(perf: string, taskset: string, workdir: string, args: string)
    ensures perf + " " + taskset + " " + workdir + "/schbench " + args
         == perf + " " + (taskset + " " + (workdir + "/schbench" + " " + args))
  {
    assert workdir + "/schbench " == workdir + "/schbench" + " ";
  }

  lemma FourWords(a: string, b: string, c: string, d: string)
    ensures Words(a + " " + (b + " " + (c + " " + d))) == Words(a) + Words(b) + Words(c) + Words(d)
  {
    WordsSplit(a, b + " " + (c + " " + d));
    WordsSplit(b, c + " " + d);
    WordsSplit(c, d);
  }

  lemma PerfPrefixWords(p: Params)
    ensures Words(PerfPrefix(p)) == if p.perfstat != "" then ["perf", "stat"] + Words(p.perfstat) else []
  {
    PrefixWords("perf", "stat", p.perfstat);
    assert "perf stat " + p.perfstat == "perf" + " " + "stat" + " " + p.perfstat;
  }

  lemma TasksetPrefixWords(p: Params)
    ensures Words(TasksetPrefix(p)) == if p.taskset != "" then ["taskset", "-c"] + Words(p.taskset) else []
  {
    PrefixWords("taskset", "-c", p.taskset);
    assert "taskset -c " + p.taskset == "taskset" + " " + "-c" + " " + p.taskset;
  }

  lemma PrefixWords(w1: string, w2: string, value: string)
    requires w1 != "" && ' ' !in w1 && w2 != "" && ' ' !in w2
    ensures value != "" ==> Words(w1 + " " + w2 + " " + value) == [w1, w2] + Words(value)
  {
    if value != "" {
      assert w1 + " " + w2 + " " + value == w1 + " " + (w2 + " " + value);
      WordsSplit(w1, w2 + " " + value);
      WordsSplit(w2, value);
      WordsOfWord(w1);
      WordsOfWord(w2);
    }
  }

  /** With the defaults of cpu/schbench.py:149-162 the shell receives the
      schbench binary, the nine template options with their default values,
      and `-L` (`locking` is on, `autobench` off, no prefixes). */
  lemma DefaultCommandWords(workdir: string)
    ensures Words(CommandLine(DefaultParams, workdir))
      == Words(workdir + "/schbench")
       + ["-m", "1", "-t", "1", "-p", "0", "-r", "5", "-i", "5"]
       + ["-F", "256", "-n", "5", "-R", "0", "-w", "0"]
       + ["-L"]
  {
    UnprefixedCommandWords(DefaultParams, workdir);
    DefaultFirstWords();
    DefaultSecondWords();
    assert FlagWords(DefaultParams) == ["-L"];
  }

  lemma UnprefixedCommandWords(p: Params, workdir: string)
    requires p.perfstat == "" && p.taskset == ""
    ensures Words(CommandLine(p, workdir))
      == Words(workdir + "/schbench") + FirstArgWords(p) + SecondArgWords(p) + FlagWords(p)
  {
    CommandWords(p, workdir);
    var w: seq<string> := [];
    assert w + w + Words(workdir + "/schbench") == Words(workdir + "/schbench");
  }

  /** The default command line: two blanks where the empty prefixes were,
      then the binary, the template with its continuation indent, and `-L `. */
  lemma DefaultCommandLine(workdir: string)
    ensures CommandLine(DefaultParams, workdir)
      == "  " + workdir + "/schbench "
       + (JoinWords(["-m", "1", "-t", "1", "-p", "0", "-r", "5", "-i", "5"]) + Blanks(16)
       + (JoinWords(["-F", "256", "-n", "5", "-R", "0", "-w", "0"]) + "-L "))
  {
    UnprefixedCommandLine(DefaultParams, workdir);
    LockedArgsShape(DefaultParams);
    DefaultFirstWords();
    DefaultSecondWords();
  }

  /** Without `perf stat` and `taskset` the command line starts with the two
      separators of cpu/schbench.py:189. */
  lemma UnprefixedCommandLine(p: Params, workdir: string)
    requires p.perfstat == "" && p.taskset == ""
    ensures CommandLine(p, workdir) == "  " + workdir + "/schbench " + Args(p)
  {
    assert "" + " " + "" + " " == "  ";
  }

  /** With `locking` on and `autobench` off, the template is followed by `-L `. */
  lemma LockedArgsShape(p: Params)
    requires !p.autobench && p.locking
    ensures Args(p) == JoinWords(FirstArgWords(p)) + ContinuationIndent + (JoinWords(SecondArgWords(p)) + "-L ")
  {
  }

  lemma DefaultNumbers()
    ensures IntToString(0) == "0" && IntToString(1) == "1" && IntToString(5) == "5"
    ensures IntToString(256) == "256"
  {
    assert NatToString(25) == "25" by {
      assert NatToString(2) == "2";
    }
  }

  lemma DefaultFirstWords()
    ensures FirstArgWords(DefaultParams) == ["-m", "1", "-t", "1", "-p", "0", "-r", "5", "-i", "5"]
  {
    DefaultNumbers();
  }

  lemma DefaultSecondWords()
    ensures SecondArgWords(DefaultParams) == ["-F", "256", "-n", "5", "-R", "0", "-w", "0"]
  {
    DefaultNumbers();
  }

  // ---------------------------------------------------------------------------
  // The recorded results.

  /** Without `perfstat` only the benchmark's own output is recorded. */
  lemma NoPerfWithoutPerfstat(p: Params, lines: seq<string>)
    requires p.perfstat == ""
    ensures TestResult(p, lines) == ParseDataSpec(lines)
  {
  }

  /** With `perfstat`, every perf counter is recorded, replacing a parsed
      entry of the same name, and every other parsed entry is kept. */
  lemma PerfCountersOverride(p: Params, lines: seq<string>)
    requires p.perfstat != ""
    ensures var r := TestResult(p, lines);
      var perf := ParsePerfDataSpec(lines);
      var bench := ParseDataSpec(lines);
      && r.Keys == bench.Keys + perf.Keys
      && (forall k :: k in perf ==> r[k] == Counter(perf[k]))
      && (forall k :: k in bench && k !in perf ==> r[k] == bench[k])
  {
  }
}
