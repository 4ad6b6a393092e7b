/** String operations of the Python runtime that the lifecycle code relies on:
    substring search (`in`, `rfind`), `readline` after a seek, `split`,
    `str.replace`, `int()` on a folder-name field, `str()` of an id, the
    `'\n'.join` of the failures file and counting its lines. */
module Text {
  import opened Values

  /** `pat` occurs in `s` starting at offset `i`. */
  predicate OccursAt(s: string, pat: string, i: int)
  {
    0 <= i && i + |pat| <= |s| && s[i..i + |pat|] == pat
  }

  /** Python's `pat in s`. */
  predicate Contains(s: string, pat: string)
  {
    exists i | 0 <= i <= |s| - |pat| :: OccursAt(s, pat, i)
  }

  /** Python's `s.rfind(pat)`: the offset of the last occurrence, or -1. */
  function RFind(s: string, pat: string): (r: int)
    ensures r >= -1
    ensures r >= 0 ==> OccursAt(s, pat, r)
    ensures forall j | r < j <= |s| - |pat| :: !OccursAt(s, pat, j)
    decreases |s|
  {
    if |pat| > |s| then -1
    else if s[|s| - |pat|..] == pat then |s| - |pat|
    else
      var r := RFind(s[..|s| - 1], pat);
      assert forall j | r < j < |s| - |pat| :: !OccursAt(s, pat, j) by {
        forall j | r < j < |s| - |pat| ensures !OccursAt(s, pat, j) {
          assert s[j..j + |pat|] == s[..|s| - 1][j..j + |pat|];
          assert !OccursAt(s[..|s| - 1], pat, j);
        }
      }
      if r >= 0 then
        assert s[r..r + |pat|] == s[..|s| - 1][r..r + |pat|];
        r
      else r
  }

  /** What `readline()` returns after seeking to offset `i`: the rest of the
      line, including its newline when there is one. */
  function LineFrom(s: string, i: nat): (r: string)
    requires i <= |s|
    ensures |r| <= |s| - i && r == s[i..i + |r|]
    ensures forall k | 0 <= k < |r| - 1 :: r[k] != '\n'
    ensures i < |s| ==> |r| > 0
    ensures i < |s| ==> i + |r| == |s| || r[|r| - 1] == '\n'
    decreases |s| - i
  {
    if i == |s| then ""
    else if s[i] == '\n' then "\n"
    else [s[i]] + LineFrom(s, i + 1)
  }

  /** The lines Python's iteration over a file holding `s` yields, each
      with its newline where it has one. */
  function Lines(s: string): (r: seq<string>)
    ensures |r| == 0 <==> s == []
    ensures forall k | 0 <= k < |r| :: |r[k]| > 0
    decreases |s|
  {
    if s == [] then []
    else
      var line := LineFrom(s, 0);
      [line] + Lines(s[|line|..])
  }

  /** Reading a line does not depend on what precedes the seek position. */
  lemma {:induction false} LineFromShift(a: string, b: string, j: nat)
    requires j <= |b|
    ensures LineFrom(a + b, |a| + j) == LineFrom(b, j)
    decreases |b| - j
  {
    if j < |b| {
      assert (a + b)[|a| + j] == b[j];
      if b[j] != '\n' {
        LineFromShift(a, b, j + 1);
      }
    }
  }

  /** The text before the first `sep`, or all of `s`. */
  function UpTo(s: string, sep: char): (r: string)
    ensures |r| <= |s| && r == s[..|r|]
    ensures sep !in r
    ensures |r| < |s| ==> s[|r|] == sep
  {
    if s == [] then []
    else if s[0] == sep then []
    else [s[0]] + UpTo(s[1..], sep)
  }

  /** Python's `s.split(sep)[1]`, or None where that raises IndexError
      (no `sep` in `s`). */
  function SecondField(s: string, sep: char): (r: Option<string>)
    ensures r.Some? <==> sep in s
    ensures r.Some? ==> sep !in r.value
  {
    var head := UpTo(s, sep);
    if |head| == |s| then None
    else Some(UpTo(s[|head| + 1..], sep))
  }

  predicate IsWhitespace(c: char)
  {
    c == ' ' || c == '\t' || c == '\n' || c == '\r' || c == '\U{0B}' || c == '\U{0C}'
  }

  /** Python's `s.strip()`. */
  function Strip(s: string): (r: string)
    ensures |r| <= |s|
  {
    if s == [] then []
    else if IsWhitespace(s[0]) then Strip(s[1..])
    else if IsWhitespace(s[|s| - 1]) then Strip(s[..|s| - 1])
    else s
  }

  predicate IsDigit(c: char) { '0' <= c <= '9' }

  predicate AllDigits(s: string) { forall i | 0 <= i < |s| :: IsDigit(s[i]) }

  function DigitsValue(s: string): (n: nat)
    requires AllDigits(s)
  {
    if s == [] then 0
    else DigitsValue(s[..|s| - 1]) * 10 + (s[|s| - 1] as int - '0' as int)
  }

  /** Python's `int(s)` on a string: surrounding whitespace, an optional
      sign and at least one decimal digit; None where `int` raises
      ValueError. */
  function ParseInt(s: string): (r: Option<int>)
  {
    var t := Strip(s);
    if |t| > 0 && (t[0] == '-' || t[0] == '+') then
      if |t| > 1 && AllDigits(t[1..]) then
        var v: int := DigitsValue(t[1..]);
        Some(if t[0] == '-' then -v else v)
      else None
    else if |t| > 0 && AllDigits(t) then Some(DigitsValue(t))
    else None
  }

  function NatToString(n: nat): (s: string)
    ensures |s| > 0 && AllDigits(s)
  {
    if n < 10 then [('0' as int + n) as char]
    else NatToString(n / 10) + [('0' as int + n % 10) as char]
  }

  /** Python's `str(n)` for an int. */
  function IntToString(n: int): (s: string)
    ensures |s| > 0
  {
    if n < 0 then "-" + NatToString(-n) else NatToString(n)
  }

  lemma {:induction false} NatToStringValue(n: nat)
    ensures DigitsValue(NatToString(n)) == n
  {
    if n >= 10 {
      NatToStringValue(n / 10);
      var s := NatToString(n);
      assert s[..|s| - 1] == NatToString(n / 10);
    }
  }

  /** Leading zeros do not change the value of a run of digits. */
  lemma {:induction false} LeadingZeros(z: string, d: string)
    requires forall i | 0 <= i < |z| :: z[i] == '0'
    requires AllDigits(d)
    ensures AllDigits(z + d) && DigitsValue(z + d) == DigitsValue(d)
    decreases |d|
  {
    if d == [] {
      assert z + d == z;
      ZerosValue(z);
    } else {
      assert (z + d)[..|z + d| - 1] == z + d[..|d| - 1];
      LeadingZeros(z, d[..|d| - 1]);
    }
  }

  lemma {:induction false} ZerosValue(z: string)
    requires forall i | 0 <= i < |z| :: z[i] == '0'
    ensures DigitsValue(z) == 0
    decreases |z|
  {
    if z != [] {
      ZerosValue(z[..|z| - 1]);
    }
  }

  /** `int(z + str(n)) == n` for a natural number after zero padding, as in
      a numbered file name. */
  lemma PaddedRoundTrip(z: string, n: nat)
    requires forall i | 0 <= i < |z| :: z[i] == '0'
    ensures ParseInt(z + IntToString(n)) == Some(n)
  {
    var d := NatToString(n);
    NatToStringValue(n);
    LeadingZeros(z, d);
    var t := z + d;
    assert forall i | 0 <= i < |t| :: !IsWhitespace(t[i]);
    StripNoWhitespace(t);
    assert t[0] != '-' && t[0] != '+';
  }

  lemma StripNoWhitespace(s: string)
    requires forall i | 0 <= i < |s| :: !IsWhitespace(s[i])
    ensures Strip(s) == s
  {
  }

  /** `int(str(n)) == n`. */
  lemma IntToStringRoundTrip(n: int)
    ensures ParseInt(IntToString(n)) == Some(n)
  {
    var s := IntToString(n);
    var m: nat := if n < 0 then -n else n;
    NatToStringValue(m);
    assert forall i | 0 <= i < |s| :: !IsWhitespace(s[i]);
    StripNoWhitespace(s);
    if n < 0 {
      assert s[1..] == NatToString(m);
    }
  }

  lemma IntToStringHasNo(n: int, c: char)
    requires c != '-' && !IsDigit(c)
    ensures c !in IntToString(n)
  {
    var s := IntToString(n);
    assert forall i | 0 <= i < |s| :: s[i] != c;
  }

  /** Python's `s.replace(pat, rep)`: every non-overlapping occurrence,
      scanning from the left. */
  function ReplaceAll(s: string, pat: string, rep: string): (r: string)
    requires |pat| > 0
    decreases |s|
  {
    if |s| < |pat| then s
    else if s[..|pat|] == pat then rep + ReplaceAll(s[|pat|..], pat, rep)
    else [s[0]] + ReplaceAll(s[1..], pat, rep)
  }

  /** Replacing leaves a string without the pattern unchanged. */
  lemma {:induction false} ReplaceAllAbsent(s: string, pat: string, rep: string)
    requires |pat| > 0 && !Contains(s, pat)
    ensures ReplaceAll(s, pat, rep) == s
    decreases |s|
  {
    if |s| >= |pat| {
      assert !OccursAt(s, pat, 0);
      assert !Contains(s[1..], pat) by {
        forall i | 0 <= i <= |s[1..]| - |pat| ensures !OccursAt(s[1..], pat, i) {
          assert s[1..][i..i + |pat|] == s[i + 1..i + 1 + |pat|];
          assert !OccursAt(s, pat, i + 1);
        }
      }
      ReplaceAllAbsent(s[1..], pat, rep);
    }
  }

  /** Replacing distributes over a prefix that holds no occurrence and ends
      where the pattern begins. */
  lemma {:induction false} ReplaceAllAt(p: string, q: string, pat: string, rep: string)
    requires |pat| > 0
    requires forall i | 0 <= i < |p| :: !OccursAt(p + pat + q, pat, i)
    ensures ReplaceAll(p + pat + q, pat, rep) == p + rep + ReplaceAll(q, pat, rep)
    decreases |p|
  {
    var s := p + pat + q;
    if p == [] {
      assert s == pat + q;
      assert s[..|pat|] == pat && s[|pat|..] == q;
    } else {
      var t := p[1..] + pat + q;
      assert s == [p[0]] + t;
      NoOccurrenceShift(p[0], t, pat, |p|);
      assert !OccursAt(s, pat, 0);
      ReplaceAllSkip(s, pat, rep);
      assert s[1..] == t;
      ReplaceAllAt(p[1..], q, pat, rep);
      assert [p[0]] + p[1..] == p;
    }
  }

  /** A string that does not start with the pattern keeps its first
      character. */
  lemma ReplaceAllSkip(s: string, pat: string, rep: string)
    requires |pat| > 0 && |s| >= |pat| && !OccursAt(s, pat, 0)
    ensures ReplaceAll(s, pat, rep) == [s[0]] + ReplaceAll(s[1..], pat, rep)
  {
    assert s[..|pat|] != pat;
  }

  /** No occurrence before position `n` of `[c] + t` means none before
      `n - 1` in `t`. */
  lemma NoOccurrenceShift(c: char, t: string, pat: string, n: nat)
    requires n >= 1 && forall i | 0 <= i < n :: !OccursAt([c] + t, pat, i)
    ensures forall i | 0 <= i < n - 1 :: !OccursAt(t, pat, i)
  {
    var s := [c] + t;
    forall i | 0 <= i < n - 1 ensures !OccursAt(t, pat, i) {
      assert !OccursAt(s, pat, i + 1);
      if i + |pat| <= |t| {
        assert s[i + 1..i + 1 + |pat|] == t[i..i + |pat|];
      }
    }
  }

  /** Python's `'\n'.join(lines)`. */
  function JoinLines(lines: seq<string>): string
  {
    if lines == [] then ""
    else if |lines| == 1 then lines[0]
    else JoinLines(lines[..|lines| - 1]) + "\n" + lines[|lines| - 1]
  }

  function CountNewlines(s: string): nat
  {
    if s == [] then 0
    else CountNewlines(s[..|s| - 1]) + (if s[|s| - 1] == '\n' then 1 else 0)
  }

  /** The number of lines Python's line iteration yields for a file holding
      `s`: one per newline, plus a final unterminated line. */
  function LineCount(s: string): (n: nat)
  {
    CountNewlines(s) + (if s != [] && s[|s| - 1] != '\n' then 1 else 0)
  }

  lemma {:induction false} CountNewlinesAppend(a: string, b: string)
    ensures CountNewlines(a + b) == CountNewlines(a) + CountNewlines(b)
    decreases |b|
  {
    if b == [] {
      assert a + b == a;
    } else {
      assert (a + b)[..|a + b| - 1] == a + b[..|b| - 1];
      CountNewlinesAppend(a, b[..|b| - 1]);
    }
  }

  lemma {:induction false} CountNewlinesNone(s: string)
    requires '\n' !in s
    ensures CountNewlines(s) == 0
    decreases |s|
  {
    if s != [] {
      CountNewlinesNone(s[..|s| - 1]);
    }
  }

  /** A failures file written with `'\n'.join` of non-empty, single-line
      entries has exactly one line per entry. */
  lemma {:induction false} JoinLinesCount(lines: seq<string>)
    requires forall i | 0 <= i < |lines| :: |lines[i]| > 0 && '\n' !in lines[i]
    ensures CountNewlines(JoinLines(lines)) == if lines == [] then 0 else |lines| - 1
    ensures lines != [] ==> |JoinLines(lines)| > 0 && JoinLines(lines)[|JoinLines(lines)| - 1] != '\n'
    ensures LineCount(JoinLines(lines)) == |lines|
    decreases |lines|
  {
    if |lines| == 1 {
      CountNewlinesNone(lines[0]);
    } else if |lines| > 1 {
      var init := lines[..|lines| - 1];
      var last := lines[|lines| - 1];
      JoinLinesCount(init);
      CountNewlinesAppend(JoinLines(init), "\n");
      CountNewlinesAppend(JoinLines(init) + "\n", last);
      CountNewlinesNone(last);
      assert CountNewlines("\n") == 1 by {
        assert "\n"[..0] == "";
      }
    }
  }
}
