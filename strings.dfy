/**
 * String helpers shared by the TypeScript and Rust parts of the model:
 * prefix and suffix tests, first-occurrence search, the decimal formatting
 * of natural numbers and the reading of a digit string back into a number.
 */
module Strings {

  import opened Wrappers

  /** JavaScript truthiness of an optional string: present and non-empty. */
  predicate Truthy(s: Option<string>) {
    s.Some? && s.value != ""
  }

  predicate StartsWith(s: string, prefix: string) {
    |prefix| <= |s| && s[..|prefix|] == prefix
  }

  predicate EndsWith(s: string, suffix: string) {
    |suffix| <= |s| && s[|s| - |suffix|..] == suffix
  }

  /** `needle` occurs in `s` starting at position `i`. */
  predicate OccursAt(s: string, needle: string, i: nat) {
    i + |needle| <= |s| && s[i..i + |needle|] == needle
  }

  /** The position of the first `c` in `s`, if any. */
  function FirstIndexOf(s: string, c: char): (r: Option<nat>)
    ensures r.None? <==> c !in s
    ensures r.Some? ==> r.value < |s| && s[r.value] == c && c !in s[..r.value]
  {
    if |s| == 0 then None
    else if s[0] == c then Some(0)
    else
      match FirstIndexOf(s[1..], c)
      case None => None
      case Some(i) =>
        assert s[..i + 1] == [s[0]] + s[1..][..i];
        Some(i + 1)
  }

  predicate IsDigit(c: char) {
    '0' <= c <= '9'
  }

  predicate AllDigits(s: string) {
    forall i :: 0 <= i < |s| ==> IsDigit(s[i])
  }

  function DigitChar(d: nat): (c: char)
    requires d < 10
    ensures IsDigit(c)
  {
    (('0' as int) + d) as char
  }

  function DigitValue(c: char): (d: nat)
    requires IsDigit(c)
    ensures d < 10
  {
    (c as int) - ('0' as int)
  }

  /** The canonical decimal text of `n`: no sign, no leading zero. */
  function Decimal(n: nat): (s: string)
    ensures 1 <= |s| && AllDigits(s)
    ensures s[0] == '0' ==> n == 0
  {
    if n < 10 then [DigitChar(n)] else Decimal(n / 10) + [DigitChar(n % 10)]
  }

  /** The number a string of decimal digits denotes. */
  function DigitsValue(s: string): nat
    requires AllDigits(s)
  {
    if |s| == 0 then 0 else DigitsValue(s[..|s| - 1]) * 10 + DigitValue(s[|s| - 1])
  }

  /** Reading the decimal text of `n` gives `n` back. */
  lemma {:induction false} DecimalRoundTrip(n: nat)
    ensures DigitsValue(Decimal(n)) == n
  {
    if n >= 10 {
      var s := Decimal(n);
      assert s[..|s| - 1] == Decimal(n / 10);
      DecimalRoundTrip(n / 10);
    }
  }

  /** Different numbers have different decimal texts. */
  lemma DecimalInjective(m: nat, n: nat)
    requires Decimal(m) == Decimal(n)
    ensures m == n
  {
    DecimalRoundTrip(m);
    DecimalRoundTrip(n);
  }

  /** `c` does not occur in `a`, so its first occurrence in `a + [c] + b` is right after `a`. */
  lemma FirstIndexAfterPrefix(a: string, c: char, b: string)
    requires c !in a
    ensures FirstIndexOf(a + [c] + b, c) == Some(|a|)
  {
    var s := a + [c] + b;
    assert s[..|a|] == a;
    assert s[|a|] == c;
    // no position before |a| holds c, and any later candidate would have s[|a|] before it
    assert forall j :: |a| < j <= |s| ==> s[..j][|a|] == c;
  }

  /**
   * Rust `str::trim_end_matches(pat)` for a non-empty `pat`: every trailing
   * repetition of `pat` removed.
   */
  function TrimEndMatches(s: string, pat: string): (r: string)
    requires |pat| > 0
    ensures !EndsWith(r, pat)
    ensures StartsWith(s, r)
    ensures !EndsWith(s, pat) ==> r == s
    decreases |s|
  {
    if EndsWith(s, pat) then TrimEndMatches(s[..|s| - |pat|], pat) else s
  }

  /** Trimming twice trims nothing more. */
  lemma TrimEndMatchesIdempotent(s: string, pat: string)
    requires |pat| > 0
    ensures TrimEndMatches(TrimEndMatches(s, pat), pat) == TrimEndMatches(s, pat)
  {
  }

  /** Trimming `x + pat` is trimming `x`. */
  lemma TrimEndMatchesOneMore(x: string, pat: string)
    requires |pat| > 0
    ensures TrimEndMatches(x + pat, pat) == TrimEndMatches(x, pat)
  {
    assert EndsWith(x + pat, pat);
    assert (x + pat)[..|x + pat| - |pat|] == x;
  }

  /**
   * Rust `str::trim_start_matches(pat)` for a non-empty `pat`: every leading
   * repetition of `pat` removed.
   */
  function TrimStartMatches(s: string, pat: string): (r: string)
    requires |pat| > 0
    ensures !StartsWith(r, pat)
    ensures EndsWith(s, r)
    ensures !StartsWith(s, pat) ==> r == s
    decreases |s|
  {
    if StartsWith(s, pat) then TrimStartMatches(s[|pat|..], pat) else s
  }

  /** One more leading copy of `pat` trims to the same result. */
  lemma TrimStartMatchesOneMore(x: string, pat: string)
    requires |pat| > 0
    ensures TrimStartMatches(pat + x, pat) == TrimStartMatches(x, pat)
  {
    assert StartsWith(pat + x, pat);
    assert (pat + x)[|pat|..] == x;
  }

  /** `k` copies of `s` one after the other. */
  function Repeat(s: string, k: nat): string {
    if k == 0 then "" else s + Repeat(s, k - 1)
  }

  /**
   * Rust `str::split(sep)` collected into a vector: the pieces between the
   * occurrences of `sep`, one more piece than there are separators.
   */
  function Split(s: string, sep: char): (parts: seq<string>)
    ensures |parts| == multiset(s)[sep] + 1
    ensures forall k :: 0 <= k < |parts| ==> sep !in parts[k]
    decreases |s|
  {
    match FirstIndexOf(s, sep)
    case None => [s]
    case Some(i) =>
      assert s == s[..i] + [sep] + s[i + 1..];
      assert multiset(s[..i])[sep] == 0;
      [s[..i]] + Split(s[i + 1..], sep)
  }

  /** Two separator-free pieces joined by one separator split back into exactly those two pieces. */
  lemma SplitTwo(a: string, sep: char, b: string)
    requires sep !in a && sep !in b
    ensures Split(a + [sep] + b, sep) == [a, b]
  {
    var s := a + [sep] + b;
    FirstIndexAfterPrefix(a, sep, b);
    assert s[..|a|] == a && s[|a| + 1..] == b;
  }
}
