/** String primitives the parsers are built from: Python's notion of
    whitespace, digit runs, substring tests, `str.strip()`, `str.replace(',', '')`,
    the decimal rendering of integers and the blank-separated words of a
    command line. */
module Text {

  /** The characters for which Python's `str.isspace()` holds; `re`'s `\s`
      and `str.strip()` use the same set on `str` data. */
  predicate IsSpace(c: char) {
    || c == ' '
    || ('\t' <= c <= '\r')
    || ('\U{1C}' <= c <= '\U{1F}')
    || c == '\U{85}' || c == '\U{A0}' || c == '\U{1680}'
    || ('\U{2000}' <= c <= '\U{200A}')
    || c == '\U{2028}' || c == '\U{2029}' || c == '\U{202F}' || c == '\U{205F}'
    || c == '\U{3000}'
  }

  /** `\d`, restricted to the ASCII digits. */
  predicate IsDigit(c: char) {
    '0' <= c <= '9'
  }

  /** The character class `[\d,.]` of the perf counter pattern. */
  predicate IsNumChar(c: char) {
    IsDigit(c) || c == ',' || c == '.'
  }

  /** The character class `[^#]`. */
  predicate NotHash(c: char) {
    c != '#'
  }

  predicate All(s: string, p: char -> bool) {
    forall i :: 0 <= i < |s| ==> p(s[i])
  }

  lemma AllConcat(a: string, b: string, p: char -> bool)
    requires All(a, p) && All(b, p)
    ensures All(a + b, p)
  {
    forall i | 0 <= i < |a + b| ensures p((a + b)[i]) {
      if i >= |a| {
        assert (a + b)[i] == b[i - |a|];
      }
    }
  }

  /** A nonempty run of characters of class `p`, as `p+` matches it. */
  predicate NonemptyRun(s: string, p: char -> bool) {
    s != "" && All(s, p)
  }

  /** True when `t` cannot extend a greedy run of class `p`. */
  predicate Stops(t: string, p: char -> bool) {
    t == "" || !p(t[0])
  }

  /** Splits `s` into its longest prefix of characters of class `p` and the rest:
      a greedy `p*`. */
  function Span(s: string, p: char -> bool): (r: (string, string))
    ensures r.0 + r.1 == s
    ensures All(r.0, p)
    ensures Stops(r.1, p)
    decreases |s|
  {
    if s == "" || !p(s[0]) then ("", s)
    else
      var tail := Span(s[1..], p);
      var run := [s[0]] + tail.0;
      assert All(run, p) by {
        forall i | 0 <= i < |run| ensures p(run[i]) {
          if i > 0 {
            assert run[i] == tail.0[i - 1];
          }
        }
      }
      assert run + tail.1 == [s[0]] + (tail.0 + tail.1);
      assert [s[0]] + s[1..] == s;
      (run, tail.1)
  }

  /** A greedy run is determined by where the class stops matching. */
  lemma {:induction false} SpanConcat(run: string, t: string, p: char -> bool)
    requires All(run, p)
    requires Stops(t, p)
    ensures Span(run + t, p) == (run, t)
    decreases |run|
  {
    if run == "" {
      assert run + t == t;
    } else {
      assert (run + t)[1..] == run[1..] + t;
      SpanConcat(run[1..], t, p);
      assert [run[0]] + run[1..] == run;
    }
  }

  /** `s` begins with `prefix`; `re.match` of a literal. */
  predicate StartsWith(s: string, prefix: string) {
    |prefix| <= |s| && s[..|prefix|] == prefix
  }

  /** The text after the literal `prefix`, when `s` begins with it. */
  function AfterPrefix(s: string, prefix: string): (r: Option<string>)
    ensures r.Some? <==> StartsWith(s, prefix)
    ensures r.Some? ==> s == prefix + r.value
  {
    if StartsWith(s, prefix) then Some(s[|prefix|..]) else None
  }

  lemma AfterPrefixConcat(prefix: string, t: string)
    ensures AfterPrefix(prefix + t, prefix) == Some(t)
  {
    assert (prefix + t)[..|prefix|] == prefix;
    assert (prefix + t)[|prefix|..] == t;
  }

  /** Python's `sub in s`. */
  function Contains(s: string, sub: string): (r: bool)
    ensures r <==> exists i :: 0 <= i <= |s| && StartsWith(s[i..], sub)
    decreases |s|
  {
    if |sub| > |s| then false
    else if StartsWith(s, sub) then
      assert s[0..] == s;
      true
    else
      var r := Contains(s[1..], sub);
      assert forall i :: 1 <= i <= |s| ==> s[i..] == s[1..][i - 1..];
      assert r ==> exists i :: 0 <= i <= |s| && StartsWith(s[i..], sub) by {
        if r {
          var j :| 0 <= j <= |s[1..]| && StartsWith(s[1..][j..], sub);
          assert s[j + 1..] == s[1..][j..];
        }
      }
      assert s[0..] == s;
      r
  }

  /** Python's `s.strip()`: `s` without its leading and trailing whitespace,
      removed one character at a time, leading ones first. */
  function Strip(s: string): (r: string)
    ensures r == "" || (!IsSpace(r[0]) && !IsSpace(r[|r| - 1]))
    ensures r == "" <==> All(s, IsSpace)
    ensures forall c :: c in r ==> c in s
    decreases |s|
  {
    if s != "" && IsSpace(s[0]) then
      var r := Strip(s[1..]);
      assert All(s, IsSpace) <==> All(s[1..], IsSpace) by {
        assert forall k :: 0 < k < |s| ==> s[k] == s[1..][k - 1];
      }
      assert forall c :: c in s[1..] ==> c in s;
      r
    else if s != "" && IsSpace(s[|s| - 1]) then
      var r := Strip(s[..|s| - 1]);
      assert !All(s[..|s| - 1], IsSpace) by {
        assert s[..|s| - 1][0] == s[0];
      }
      assert !All(s, IsSpace);
      assert forall c :: c in s[..|s| - 1] ==> c in s;
      r
    else
      s
  }

  /** `r` is `s[i..j]` and only whitespace lies outside it. */
  predicate TrimmedSlice(s: string, i: int, j: int, r: string) {
    && 0 <= i <= j <= |s| && r == s[i..j]
    && (forall k :: 0 <= k < i ==> IsSpace(s[k]))
    && (forall k :: j <= k < |s| ==> IsSpace(s[k]))
  }

  /** `strip()` keeps a slice of `s` and drops only whitespace around it. */
  lemma {:induction false} StripIsSlice(s: string)
    ensures exists i, j :: TrimmedSlice(s, i, j, Strip(s))
    decreases |s|
  {
    if s != "" && IsSpace(s[0]) {
      StripIsSlice(s[1..]);
      var i, j :| TrimmedSlice(s[1..], i, j, Strip(s[1..]));
      LeadingSpaceSlice(s, i, j);
    } else if s != "" && IsSpace(s[|s| - 1]) {
      StripIsSlice(s[..|s| - 1]);
      var i, j :| TrimmedSlice(s[..|s| - 1], i, j, Strip(s[..|s| - 1]));
      TrailingSpaceSlice(s, i, j);
    } else {
      assert TrimmedSlice(s, 0, |s|, Strip(s));
    }
  }

  lemma LeadingSpaceSlice(s: string, i: int, j: int)
    requires s != "" && IsSpace(s[0])
    requires TrimmedSlice(s[1..], i, j, Strip(s[1..]))
    ensures TrimmedSlice(s, i + 1, j + 1, Strip(s))
  {
    var t := s[1..];
    assert t[i..j] == s[i + 1..j + 1];
    assert forall k :: 0 < k < |s| ==> s[k] == t[k - 1];
  }

  lemma TrailingSpaceSlice(s: string, i: int, j: int)
    requires s != "" && !IsSpace(s[0]) && IsSpace(s[|s| - 1])
    requires TrimmedSlice(s[..|s| - 1], i, j, Strip(s[..|s| - 1]))
    ensures TrimmedSlice(s, i, j, Strip(s))
  {
    var t := s[..|s| - 1];
    assert t[i..j] == s[i..j];
    assert forall k :: 0 <= k < |t| ==> s[k] == t[k];
  }

  /** A line whose `strip()` is empty. */
  predicate Blank(s: string) {
    All(s, IsSpace)
  }

  /** Python's `s.replace(',', '')`. */
  function RemoveCommas(s: string): (r: string)
    ensures ',' !in r
    ensures forall c :: c in r <==> c in s && c != ','
    ensures |r| <= |s|
    ensures ',' !in s ==> r == s
  {
    if s == "" then ""
    else
      var rest := RemoveCommas(s[1..]);
      assert forall c :: c in s <==> c == s[0] || c in s[1..];
      assert ',' !in s ==> [s[0]] + s[1..] == s;
      if s[0] == ',' then rest else [s[0]] + rest
  }

  /** Removing commas works piece by piece, so the kept characters stay in
      their order. */
  lemma {:induction false} RemoveCommasConcat(a: string, b: string)
    ensures RemoveCommas(a + b) == RemoveCommas(a) + RemoveCommas(b)
    decreases |a|
  {
    if a == "" {
      assert a + b == b;
    } else {
      assert (a + b)[0] == a[0] && (a + b)[1..] == a[1..] + b;
      RemoveCommasConcat(a[1..], b);
    }
  }

  /** A comma is dropped and any other character is kept. */
  lemma RemoveCommasChar(c: char)
    ensures RemoveCommas([c]) == if c == ',' then "" else [c]
  {
    assert [c][1..] == "";
  }

  /** `strip()` leaves a string alone that neither starts nor ends with
      whitespace. */
  lemma StripUnspaced(s: string)
    requires s == "" || (!IsSpace(s[0]) && !IsSpace(s[|s| - 1]))
    ensures Strip(s) == s
  {
  }

  // ---------------------------------------------------------------------------
  // Decimal rendering of integers (Python's `str(int)`, used by `str.format`).

  function DigitChar(d: nat): (c: char)
    requires d < 10
    ensures IsDigit(c)
  {
    "0123456789"[d]
  }

  function DigitValue(c: char): (d: nat)
    requires IsDigit(c)
    ensures d < 10 && DigitChar(d) == c
  {
    (c as int - '0' as int) as nat
  }

  /** The value of a string of decimal digits. */
  function DecimalValue(s: string): nat
    requires All(s, IsDigit)
  {
    if s == "" then 0 else DecimalValue(s[..|s| - 1]) * 10 + DigitValue(s[|s| - 1])
  }

  /** The decimal digits of `n`, most significant first and without leading zeros. */
  function NatToString(n: nat): (s: string)
    ensures NonemptyRun(s, IsDigit)
    ensures s[0] == '0' ==> n == 0 && s == "0"
    decreases n
  {
    if n < 10 then [DigitChar(n)] else NatToString(n / 10) + [DigitChar(n % 10)]
  }

  /** Python's `str(n)` for an `int`. */
  function IntToString(n: int): (s: string)
    ensures s != "" && ' ' !in s
    ensures s[0] == '-' ==> |s| > 1 && IsDigit(s[1])
  {
    if n < 0 then "-" + NatToString(-n) else NatToString(n)
  }

  /** Reading the digits back gives the number: NatToString is injective. */
  lemma {:induction false} NatToStringValue(n: nat)
    ensures DecimalValue(NatToString(n)) == n
    decreases n
  {
    var s := NatToString(n);
    if n < 10 {
      assert s[..|s| - 1] == "";
    } else {
      NatToStringValue(n / 10);
      assert s[..|s| - 1] == NatToString(n / 10);
      assert DigitValue(s[|s| - 1]) == n % 10;
    }
  }

  // ---------------------------------------------------------------------------
  // Words of a command line: the pieces between blanks.

  /** `[word]`, or nothing when `word` is empty. */
  function Flush(word: string): seq<string> {
    if word == "" then [] else [word]
  }

  /** The words of `s`, `word` being the part of a word read before it. */
  function WordsAfter(word: string, s: string): seq<string>
    decreases |s|
  {
    if s == "" then Flush(word)
    else if s[0] == ' ' then Flush(word) + WordsAfter("", s[1..])
    else WordsAfter(word + [s[0]], s[1..])
  }

  /** The words of `s`, splitting at blanks and dropping empty pieces, which is
      how a shell divides a simple command into its arguments. */
  function Words(s: string): seq<string> {
    WordsAfter("", s)
  }

  lemma {:induction false} WordsAfterSplit(word: string, a: string, b: string)
    ensures WordsAfter(word, a + " " + b) == WordsAfter(word, a) + Words(b)
    decreases |a|
  {
    var s := a + " " + b;
    if a == "" {
      assert s[0] == ' ' && s[1..] == b;
    } else {
      assert s[0] == a[0] && s[1..] == a[1..] + " " + b;
      if a[0] == ' ' {
        WordsAfterSplit("", a[1..], b);
      } else {
        WordsAfterSplit(word + [a[0]], a[1..], b);
      }
    }
  }

  /** A blank always separates words. */
  lemma WordsSplit(a: string, b: string)
    ensures Words(a + " " + b) == Words(a) + Words(b)
  {
    WordsAfterSplit("", a, b);
  }

  lemma {:induction false} WordsAfterWord(word: string, s: string)
    requires ' ' !in s && word + s != ""
    ensures WordsAfter(word, s) == [word + s]
    decreases |s|
  {
    if s == "" {
      assert word + s == word;
    } else {
      assert s[0] in s;
      assert (word + [s[0]]) + s[1..] == word + s;
      assert forall c :: c in s[1..] ==> c in s;
      WordsAfterWord(word + [s[0]], s[1..]);
    }
  }

  /** A string without blanks is a single word. */
  lemma WordsOfWord(w: string)
    requires w != "" && ' ' !in w
    ensures Words(w) == [w]
  {
    WordsAfterWord("", w);
    assert "" + w == w;
  }

  datatype Option<+T> = None | Some(value: T)
}
