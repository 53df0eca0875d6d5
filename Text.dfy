/** Python string operations the core relies on, written out on `seq<char>`:
    str.isspace, strip/rstrip/lstrip, str.join, ASCII lower-casing, the `in`
    substring test, slicing with Python's rules, and decimal formatting. */
module Text {

  /** Python's str.isspace() for one character. */
  predicate IsSpace(c: char)
  {
    c == ' ' || ('\t' <= c <= '\r') || ('\U{1C}' <= c <= '\U{1F}')
    || c == '\U{85}' || c == '\U{A0}' || c == '\U{1680}'
    || ('\U{2000}' <= c <= '\U{200A}') || c == '\U{2028}' || c == '\U{2029}'
    || c == '\U{202F}' || c == '\U{205F}' || c == '\U{3000}'
  }

  /** The characters at which Python's str.splitlines() breaks a line. */
  predicate IsLineBreak(c: char)
  {
    c == '\n' || c == '\r' || c == '\U{0B}' || c == '\U{0C}'
    || ('\U{1C}' <= c <= '\U{1E}') || c == '\U{85}' || c == '\U{2028}' || c == '\U{2029}'
  }

  lemma LineBreakIsSpace(c: char)
    requires IsLineBreak(c)
    ensures IsSpace(c)
  {
  }

  /** str.rstrip(): the longest prefix that does not end in whitespace. */
  function RStrip(s: string): (r: string)
    ensures |r| <= |s| && r == s[..|r|]
    ensures forall i :: |r| <= i < |s| ==> IsSpace(s[i])
    ensures |r| > 0 ==> !IsSpace(r[|r| - 1])
  {
    if |s| > 0 && IsSpace(s[|s| - 1]) then RStrip(s[..|s| - 1]) else s
  }

  /** str.lstrip(): the longest suffix that does not start with whitespace. */
  function LStrip(s: string): (r: string)
    ensures |r| <= |s| && r == s[|s| - |r|..]
    ensures forall i :: 0 <= i < |s| - |r| ==> IsSpace(s[i])
    ensures |r| > 0 ==> !IsSpace(r[0])
  {
    if |s| > 0 && IsSpace(s[0]) then LStrip(s[1..]) else s
  }

  /** str.strip(). */
  function Strip(s: string): (r: string)
  {
    LStrip(RStrip(s))
  }

  /** Strip removes whitespace at both ends and nothing else: the result is a
      slice of the input, everything cut off is whitespace, and the result
      neither starts nor ends with whitespace. */
  lemma StripIsSlice(s: string) returns (a: nat, b: nat)
    ensures a <= b <= |s| && Strip(s) == s[a..b]
    ensures forall i :: 0 <= i < a ==> IsSpace(s[i])
    ensures forall i :: b <= i < |s| ==> IsSpace(s[i])
    ensures |Strip(s)| > 0 ==> !IsSpace(Strip(s)[0]) && !IsSpace(Strip(s)[|Strip(s)| - 1])
  {
    var t := RStrip(s);
    var r := LStrip(t);
    b := |t|;
    a := |t| - |r|;
    assert r == t[a..] == s[..b][a..];
    if |r| > 0 {
      assert r[|r| - 1] == t[|t| - 1];
    }
  }

  /** Strip leaves no whitespace at either end. */
  lemma StripTrimmed(s: string)
    ensures TrimmedEnds(Strip(s))
  {
    var a, b := StripIsSlice(s);
  }

  /** Strip leaves text that is already trimmed as it is. */
  lemma StripOfTrimmed(s: string)
    requires TrimmedEnds(s)
    ensures Strip(s) == s
  {
  }

  /** sep.join(parts). */
  function Join(sep: string, parts: seq<string>): (r: string)
    decreases |parts|
  {
    if |parts| == 0 then ""
    else if |parts| == 1 then parts[0]
    else parts[0] + sep + Join(sep, parts[1..])
  }

  lemma {:induction false} JoinLength(sep: string, parts: seq<string>)
    ensures |parts| == 0 ==> |Join(sep, parts)| == 0
    ensures |parts| > 0 ==> |Join(sep, parts)| >= |parts[0]|
    decreases |parts|
  {
    if |parts| > 1 {
      JoinLength(sep, parts[1..]);
    }
  }

  /** ASCII lower-casing of one character. */
  function LowerChar(c: char): char
  {
    if 'A' <= c <= 'Z' then (c as int + 32) as char else c
  }

  /** str.lower(), restricted to ASCII letters. */
  function Lower(s: string): (r: string)
    ensures |r| == |s|
    ensures forall i :: 0 <= i < |s| ==> r[i] == LowerChar(s[i])
  {
    seq(|s|, i requires 0 <= i < |s| => LowerChar(s[i]))
  }

  predicate IsPrefix(p: string, s: string)
  {
    |p| <= |s| && s[..|p|] == p
  }

  predicate IsSuffix(p: string, s: string)
  {
    |p| <= |s| && s[|s| - |p|..] == p
  }

  lemma PrefixOfConcat(p: string, t: string)
    ensures IsPrefix(p, p + t)
  {
    assert (p + t)[..|p|] == p;
  }

  lemma SuffixOfConcat(p: string, t: string)
    ensures IsSuffix(t, p + t)
  {
    assert (p + t)[|p|..] == t;
  }

  lemma SuffixOfNestedConcat(p: string, q: string, t: string)
    ensures IsSuffix(t, p + (q + t))
  {
    assert p + (q + t) == (p + q) + t;
    SuffixOfConcat(p + q, t);
  }

  lemma PrefixExtends(p: string, s: string, t: string)
    requires IsPrefix(p, s)
    ensures IsPrefix(p, s + t)
  {
    assert (s + t)[..|p|] == s[..|p|];
  }

  lemma PrefixAfterCommon(e: string, p: string, s: string)
    requires IsPrefix(p, s)
    ensures IsPrefix(e + p, e + s)
  {
    assert (e + s)[..|e + p|] == e + s[..|p|];
  }

  /** `sub` starts at index i of s. */
  predicate OccursAt(s: string, sub: string, i: int)
  {
    0 <= i && i + |sub| <= |s| && s[i..i + |sub|] == sub
  }

  /** Python's `sub in s`, computed by scanning from index `from`. */
  function ContainsFrom(s: string, sub: string, from: nat): (b: bool)
    requires from <= |s|
    ensures b <==> exists i :: from <= i <= |s| && OccursAt(s, sub, i)
    decreases |s| - from
  {
    if OccursAt(s, sub, from) then true
    else if from == |s| then false
    else ContainsFrom(s, sub, from + 1)
  }

  /** Python's `sub in s`. */
  function Contains(s: string, sub: string): (b: bool)
    ensures b <==> exists i :: 0 <= i <= |s| && OccursAt(s, sub, i)
  {
    ContainsFrom(s, sub, 0)
  }

  lemma FoundAt(s: string, sub: string, i: nat)
    requires OccursAt(s, sub, i)
    ensures Contains(s, sub)
  {
  }

  lemma {:induction false} ContainsWhereConcatenated(a: string, sub: string, b: string)
    ensures Contains(a + sub + b, sub)
  {
    var s := a + sub + b;
    assert s[|a|..|a| + |sub|] == sub;
    FoundAt(s, sub, |a|);
  }

  lemma ContainsPrefix(s: string, sub: string)
    requires IsPrefix(sub, s)
    ensures Contains(s, sub)
  {
    FoundAt(s, sub, 0);
  }

  lemma ContainsExtended(a: string, s: string, b: string, sub: string)
    requires Contains(s, sub)
    ensures Contains(a + s, sub) && Contains(s + b, sub)
  {
    var i :| 0 <= i <= |s| && OccursAt(s, sub, i);
    assert (a + s)[|a| + i..|a| + i + |sub|] == s[i..i + |sub|];
    FoundAt(a + s, sub, |a| + i);
    assert (s + b)[i..i + |sub|] == s[i..i + |sub|];
    FoundAt(s + b, sub, i);
  }

  /** Python's s[:n] for any integer n (a negative n counts from the end). */
  function PyPrefix(s: string, n: int): (r: string)
    ensures |r| <= |s| && r == s[..|r|]
    ensures n >= 0 ==> |r| == if n < |s| then n else |s|
    ensures n < 0 ==> |r| == if |s| + n > 0 then |s| + n else 0
  {
    if n >= 0 then (if n < |s| then s[..n] else s)
    else (if |s| + n > 0 then s[..|s| + n] else [])
  }

  function DigitChar(d: nat): char
    requires d < 10
  {
    ('0' as int + d) as char
  }

  /** Python's str(n) for a non-negative integer. */
  function NatToString(n: nat): (r: string)
    ensures |r| > 0
    ensures forall i :: 0 <= i < |r| ==> '0' <= r[i] <= '9'
    decreases n
  {
    if n < 10 then [DigitChar(n)] else NatToString(n / 10) + [DigitChar(n % 10)]
  }

  /** The value of a string of decimal digits. */
  function DecimalValue(s: string): nat
    requires forall i :: 0 <= i < |s| ==> '0' <= s[i] <= '9'
    decreases |s|
  {
    if |s| == 0 then 0
    else 10 * DecimalValue(s[..|s| - 1]) + (s[|s| - 1] as int - '0' as int)
  }

  /** Formatting a number and reading it back gives the number. */
  lemma {:induction false} NatToStringRoundTrip(n: nat)
    ensures DecimalValue(NatToString(n)) == n
    decreases n
  {
    var r := NatToString(n);
    if n >= 10 {
      NatToStringRoundTrip(n / 10);
      assert r[..|r| - 1] == NatToString(n / 10);
    }
  }

  /** The layout a normalised text has: every newline sits strictly inside the
      text, follows a non-whitespace character and is not followed by another
      newline, so no line is blank and no line ends in whitespace. */
  predicate TidyLines(s: string)
  {
    forall i :: 0 <= i < |s| && s[i] == '\n' ==>
      0 < i < |s| - 1 && !IsSpace(s[i - 1]) && s[i + 1] != '\n'
  }

  /** The only line break left in s is '\n'. */
  predicate OnlyNewlineBreaks(s: string)
  {
    forall i :: 0 <= i < |s| && IsLineBreak(s[i]) ==> s[i] == '\n'
  }

  predicate TrimmedEnds(s: string)
  {
    |s| > 0 ==> !IsSpace(s[0]) && !IsSpace(s[|s| - 1])
  }

  /** A line that can be joined without producing a blank or ragged line. */
  predicate SolidLine(l: string)
  {
    |l| > 0 && !IsSpace(l[|l| - 1]) && forall i :: 0 <= i < |l| ==> !IsLineBreak(l[i])
  }

  /** Joining solid lines with '\n' gives tidy text that ends in a
      non-whitespace character and starts with the first line. */
  lemma {:induction false} JoinSolidLines(lines: seq<string>)
    requires forall k :: 0 <= k < |lines| ==> SolidLine(lines[k])
    ensures TidyLines(Join("\n", lines)) && OnlyNewlineBreaks(Join("\n", lines))
    ensures |lines| > 0 ==>
      var j := Join("\n", lines);
      |j| > 0 && |lines[0]| > 0 && j[0] == lines[0][0] && !IsSpace(j[|j| - 1])
    decreases |lines|
  {
    if |lines| > 1 {
      var l := lines[0];
      var t := Join("\n", lines[1..]);
      JoinSolidLines(lines[1..]);
      var s := l + "\n" + t;
      assert Join("\n", lines) == s;
      forall i | 0 <= i < |s| && s[i] == '\n'
        ensures 0 < i < |s| - 1 && !IsSpace(s[i - 1]) && s[i + 1] != '\n'
      {
        if i > |l| {
          assert s[i] == t[i - |l| - 1];
        } else if i == |l| {
          assert s[i - 1] == l[|l| - 1];
          assert s[i + 1] == t[0] == lines[1][0];
        }
      }
      forall i | 0 <= i < |s| && IsLineBreak(s[i]) ensures s[i] == '\n'
      {
        if i > |l| {
          assert s[i] == t[i - |l| - 1];
        }
      }
    }
  }

  /** Joining non-empty lines that have no whitespace at either end gives
      a text with no whitespace at either end. */
  lemma {:induction false} JoinTrimmed(sep: string, lines: seq<string>)
    requires forall k :: 0 <= k < |lines| ==> lines[k] != "" && TrimmedEnds(lines[k])
    ensures TrimmedEnds(Join(sep, lines))
    ensures |lines| > 0 ==> |Join(sep, lines)| > 0 && Join(sep, lines)[0] == lines[0][0]
    decreases |lines|
  {
    if |lines| > 1 {
      JoinTrimmed(sep, lines[1..]);
      var j := Join(sep, lines);
      var t := Join(sep, lines[1..]);
      assert j == lines[0] + sep + t;
      assert j[0] == lines[0][0];
      assert j[|j| - 1] == t[|t| - 1];
    }
  }

  /** Stripping tidy text keeps it tidy and trims both ends. */
  lemma StripTidy(s: string)
    requires TidyLines(s) && OnlyNewlineBreaks(s)
    ensures TidyLines(Strip(s)) && OnlyNewlineBreaks(Strip(s)) && TrimmedEnds(Strip(s))
  {
    var a, b := StripIsSlice(s);
    var r := Strip(s);
    forall j | 0 <= j < |r| && r[j] == '\n'
      ensures 0 < j < |r| - 1 && !IsSpace(r[j - 1]) && r[j + 1] != '\n'
    {
      assert r[j] == s[a + j];
      assert IsSpace('\n');
      if j == 0 || j == |r| - 1 {
        assert false;
      }
      assert r[j - 1] == s[a + j - 1];
      assert r[j + 1] == s[a + j + 1];
    }
    forall j | 0 <= j < |r| && IsLineBreak(r[j]) ensures r[j] == '\n'
    {
      assert r[j] == s[a + j];
    }
  }
}
