/** The string handling the game relies on: Rust's `str::split_whitespace`, which every command
  * parser uses to tokenise a line, and the decimal rendering `format!("{}", n)` of an unsigned
  * integer, which ship ids are built from. */
module Text {

  /** Characters with the Unicode `White_Space` property, the separators of `split_whitespace`. */
  predicate IsWhitespace(c: char) {
    ('\U{0009}' <= c <= '\U{000D}') || c == ' ' || c == '\U{0085}' || c == '\U{00A0}'
    || c == '\U{1680}' || ('\U{2000}' <= c <= '\U{200A}') || c == '\U{2028}' || c == '\U{2029}'
    || c == '\U{202F}' || c == '\U{205F}' || c == '\U{3000}'
  }

  predicate AllWhitespace(s: string) {
    forall i :: 0 <= i < |s| ==> IsWhitespace(s[i])
  }

  /** What `split_whitespace` yields: a non-empty run of non-whitespace characters. */
  predicate IsToken(t: string) {
    |t| > 0 && forall i :: 0 <= i < |t| ==> !IsWhitespace(t[i])
  }

  /** `s` with every whitespace character deleted. */
  function RemoveWhitespace(s: string): (r: string)
    ensures |r| <= |s|
  {
    if s == [] then []
    else if IsWhitespace(s[0]) then RemoveWhitespace(s[1..])
    else [s[0]] + RemoveWhitespace(s[1..])
  }

  function Concat(parts: seq<string>): string {
    if parts == [] then [] else parts[0] + Concat(parts[1..])
  }

  /** The parts separated by one space each. */
  function JoinWithSpaces(parts: seq<string>): string {
    if parts == [] then []
    else if |parts| == 1 then parts[0]
    else parts[0] + " " + JoinWithSpaces(parts[1..])
  }

  /** Length of the longest whitespace-free prefix of `s`. */
  function WordLength(s: string): (n: nat)
    ensures n <= |s|
    ensures forall i :: 0 <= i < n ==> !IsWhitespace(s[i])
    ensures n < |s| ==> IsWhitespace(s[n])
  {
    if s == [] || IsWhitespace(s[0]) then 0 else 1 + WordLength(s[1..])
  }

  /** `s.split_whitespace().collect::<Vec<_>>()`. */
  function SplitWhitespace(s: string): (r: seq<string>)
    ensures forall i :: 0 <= i < |r| ==> IsToken(r[i])
    ensures r == [] <==> AllWhitespace(s)
    decreases |s|
  {
    if s == [] then []
    else if IsWhitespace(s[0]) then SplitWhitespace(s[1..])
    else
      var n := WordLength(s);
      [s[..n]] + SplitWhitespace(s[n..])
  }

  lemma {:induction false} RemoveWhitespaceOfWord(s: string, n: nat)
    requires n <= |s|
    requires forall i :: 0 <= i < n ==> !IsWhitespace(s[i])
    ensures RemoveWhitespace(s) == s[..n] + RemoveWhitespace(s[n..])
    decreases n
  {
    if n > 0 {
      RemoveWhitespaceOfWord(s[1..], n - 1);
      assert s[1..][..n - 1] == s[1..n];
      assert s[1..][n - 1..] == s[n..];
      assert [s[0]] + s[1..n] == s[..n];
    }
  }

  /** No character is lost or reordered: the tokens, glued back together, are the input without
    * its whitespace. */
  lemma {:induction false} SplitWhitespaceKeepsContent(s: string)
    ensures Concat(SplitWhitespace(s)) == RemoveWhitespace(s)
    decreases |s|
  {
    if s == [] {
    } else if IsWhitespace(s[0]) {
      SplitWhitespaceKeepsContent(s[1..]);
    } else {
      var n := WordLength(s);
      SplitWhitespaceKeepsContent(s[n..]);
      RemoveWhitespaceOfWord(s, n);
      var r := SplitWhitespace(s);
      assert r == [s[..n]] + SplitWhitespace(s[n..]);
      assert r[1..] == SplitWhitespace(s[n..]);
    }
  }

  /** A token followed by nothing or by whitespace is split off as the first word. */
  lemma SplitAfterToken(t: string, x: string)
    requires IsToken(t)
    requires x == [] || IsWhitespace(x[0])
    ensures SplitWhitespace(t + x) == [t] + SplitWhitespace(x)
  {
    var s := t + x;
    WordLengthOfToken(t, x);
    assert s[0] == t[0];
    assert s[..|t|] == t && s[|t|..] == x;
  }

  lemma SplitWhitespaceOfLeadingToken(t: string, rest: string)
    requires IsToken(t)
    ensures SplitWhitespace(t + " " + rest) == [t] + SplitWhitespace(rest)
    ensures SplitWhitespace(t) == [t]
  {
    var x := " " + rest;
    assert t + " " + rest == t + x;
    SplitAfterToken(t, x);
    assert x[0] == ' ' && x[1..] == rest;
    SplitAfterToken(t, []);
    assert t + [] == t;
  }

  lemma {:induction false} WordLengthOfToken(t: string, rest: string)
    requires forall i :: 0 <= i < |t| ==> !IsWhitespace(t[i])
    requires rest == [] || IsWhitespace(rest[0])
    ensures WordLength(t + rest) == |t|
    decreases |t|
  {
    if t != [] {
      assert (t + rest)[1..] == t[1..] + rest;
      WordLengthOfToken(t[1..], rest);
    }
  }

  /** Tokenising undoes joining with single spaces: the parsers see exactly the words typed. */
  lemma {:induction false} SplitJoinRoundTrip(parts: seq<string>)
    requires forall i :: 0 <= i < |parts| ==> IsToken(parts[i])
    ensures SplitWhitespace(JoinWithSpaces(parts)) == parts
  {
    if parts == [] {
    } else if |parts| == 1 {
      SplitWhitespaceOfLeadingToken(parts[0], []);
    } else {
      SplitJoinRoundTrip(parts[1..]);
      SplitWhitespaceOfLeadingToken(parts[0], JoinWithSpaces(parts[1..]));
    }
  }

  predicate IsDigit(c: char) {
    '0' <= c <= '9'
  }

  function DigitChar(d: nat): (c: char)
    requires d < 10
    ensures IsDigit(c)
  {
    ('0' as int + d) as char
  }

  function DigitValue(c: char): (d: nat)
    requires IsDigit(c)
    ensures d < 10
  {
    c as int - '0' as int
  }

  /** `format!("{}", n)`: the decimal digits of `n`, without leading zeros. */
  function NatToString(n: nat): (r: string)
    ensures |r| >= 1
    ensures forall i :: 0 <= i < |r| ==> IsDigit(r[i])
    ensures r[0] == '0' <==> n == 0
    decreases n
  {
    if n < 10 then [DigitChar(n)] else NatToString(n / 10) + [DigitChar(n % 10)]
  }

  /** The value of a string of decimal digits, the reference reading of `NatToString`. */
  function DecimalValue(s: string): nat
    requires forall i :: 0 <= i < |s| ==> IsDigit(s[i])
  {
    if s == [] then 0 else 10 * DecimalValue(s[..|s| - 1]) + DigitValue(s[|s| - 1])
  }

  lemma {:induction false} DecimalValueOfNatToString(n: nat)
    ensures DecimalValue(NatToString(n)) == n
    decreases n
  {
    var s := NatToString(n);
    if n >= 10 {
      DecimalValueOfNatToString(n / 10);
      assert s[..|s| - 1] == NatToString(n / 10);
    }
  }

  /** Different numbers render differently. */
  lemma NatToStringInjective(a: nat, b: nat)
    requires NatToString(a) == NatToString(b)
    ensures a == b
  {
    DecimalValueOfNatToString(a);
    DecimalValueOfNatToString(b);
  }
}
