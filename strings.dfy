/** The handful of JavaScript string operations the core relies on
    (`startsWith`, `endsWith`, `includes`, `split`, `toLowerCase`, `length`,
    `Number`, `String`), written over `seq<char>`. */
module Strings {

  predicate StartsWith(s: string, prefix: string) {
    |prefix| <= |s| && s[..|prefix|] == prefix
  }

  predicate EndsWith(s: string, suffix: string) {
    |suffix| <= |s| && s[|s| - |suffix|..] == suffix
  }

  /** `s.includes(part)` */
  predicate Contains(s: string, part: string)
    decreases |s|
  {
    StartsWith(s, part) || (|s| > 0 && Contains(s[1..], part))
  }

  lemma {:induction false} ContainsAt(s: string, part: string, i: nat)
    requires i + |part| <= |s| && s[i..i + |part|] == part
    ensures Contains(s, part)
    decreases i
  {
    if i > 0 {
      assert s[1..][i - 1..i - 1 + |part|] == s[i..i + |part|];
      ContainsAt(s[1..], part, i - 1);
    }
  }

  lemma {:induction false} ContainsWitness(s: string, part: string) returns (i: nat)
    requires Contains(s, part)
    ensures i + |part| <= |s| && s[i..i + |part|] == part
    decreases |s|
  {
    if StartsWith(s, part) {
      i := 0;
    } else {
      var j := ContainsWitness(s[1..], part);
      assert s[1..][j..j + |part|] == s[j + 1..j + 1 + |part|];
      i := j + 1;
    }
  }

  lemma {:induction false} ContainsAppend(a: string, b: string, part: string)
    requires Contains(a, part)
    ensures Contains(a + b, part)
  {
    var i := ContainsWitness(a, part);
    assert (a + b)[i..i + |part|] == a[i..i + |part|];
    ContainsAt(a + b, part, i);
  }

  /** `s.indexOf(part)`: where `part` first occurs in `s`, or -1. */
  function IndexOf(s: string, part: string): (i: int)
    ensures -1 <= i <= |s|
    ensures i >= 0 ==> i + |part| <= |s| && s[i..i + |part|] == part
    ensures i >= 0 ==> forall k :: 0 <= k < i ==> !StartsWith(s[k..], part)
    ensures i == -1 <==> !Contains(s, part)
    decreases |s|
  {
    if StartsWith(s, part) then 0
    else if s == [] then -1
    else
      var j := IndexOf(s[1..], part);
      if j == -1 then -1
      else
        assert s[1..][j..j + |part|] == s[j + 1..j + 1 + |part|];
        assert forall k :: 1 <= k < j + 1 ==> s[k..] == s[1..][k - 1..];
        j + 1
  }

  /** ASCII lower-casing of one character. */
  function LowerChar(c: char): char {
    if 'A' <= c <= 'Z' then (c as int + 32) as char else c
  }

  /** `s.toLowerCase()` restricted to ASCII letters, which is all the inputs it
      is applied to can hold (URL hostnames are ASCII after parsing). */
  function Lower(s: string): (r: string)
    ensures |r| == |s|
    ensures forall i :: 0 <= i < |s| ==> r[i] == LowerChar(s[i])
  {
    seq(|s|, i requires 0 <= i < |s| => LowerChar(s[i]))
  }

  /** `s.replace(/c+$/, '')`: every trailing `c` removed. */
  function TrimTrailing(s: string, c: char): (r: string)
    ensures |r| <= |s| && r == s[..|r|]
    ensures !EndsWith(r, [c])
    ensures forall i :: |r| <= i < |s| ==> s[i] == c
    decreases |s|
  {
    if |s| > 0 && s[|s| - 1] == c then TrimTrailing(s[..|s| - 1], c) else s
  }

  /** `s.length`: the number of UTF-16 code units, so a character outside the
      Basic Multilingual Plane counts twice. */
  function Utf16Length(s: string): (n: nat)
    ensures |s| <= n <= 2 * |s|
  {
    if s == [] then 0
    else Utf16Length(s[..|s| - 1]) + (if s[|s| - 1] as int > 0xFFFF then 2 else 1)
  }

  /** The position of the first `c` in `s`, or -1. */
  function FindChar(s: string, c: char): (i: int)
    ensures -1 <= i < |s|
    ensures i >= 0 ==> s[i] == c && c !in s[..i]
    ensures i == -1 ==> c !in s
    decreases |s|
  {
    if s == [] then -1
    else if s[0] == c then 0
    else
      var j := FindChar(s[1..], c);
      if j == -1 then -1 else j + 1
  }

  /** `s.split(separator)` for a one-character separator. */
  function Split(s: string, separator: char): (parts: seq<string>)
    ensures |parts| >= 1
    decreases |s|
  {
    var i := FindChar(s, separator);
    if i == -1 then [s] else [s[..i]] + Split(s[i + 1..], separator)
  }

  predicate IsDigit(c: char) {
    '0' <= c <= '9'
  }

  predicate AllDigits(s: string) {
    forall i :: 0 <= i < |s| ==> IsDigit(s[i])
  }

  /** `Number(s)` for a string of decimal digits. */
  function ParseDecimal(s: string): nat
    requires AllDigits(s)
  {
    if s == [] then 0
    else ParseDecimal(s[..|s| - 1]) * 10 + (s[|s| - 1] as int - '0' as int)
  }

  function DigitChar(d: nat): char
    requires d < 10
  {
    ('0' as int + d) as char
  }

  /** `String(n)` for a non-negative integer. */
  function NaturalString(n: nat): (s: string)
    ensures |s| >= 1 && AllDigits(s)
    ensures ParseDecimal(s) == n
  {
    if n < 10 then [DigitChar(n)]
    else
      var s := NaturalString(n / 10) + [DigitChar(n % 10)];
      assert s[..|s| - 1] == NaturalString(n / 10);
      s
  }

  /** `String(n)` for an integer. */
  function IntegerString(n: int): string {
    if n < 0 then "-" + NaturalString(-n) else NaturalString(n)
  }
}
