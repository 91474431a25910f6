/**
 * Character-level matching used by the browser classifier: the regular
 * expressions of the detector are literal ASCII alternatives with the `i`
 * flag and no `u` flag, so a case-insensitive test is ASCII case folding
 * followed by substring containment. Also the decimal digit runs that
 * `parseInt(..., 10)` reads and the decimal text that string concatenation
 * of a whole number produces.
 */
module Text {

  /** ASCII upper case to lower case; every other character is unchanged. */
  function Lower(c: char): (r: char)
    ensures 'A' <= c <= 'Z' ==> r as int == c as int + 32
    ensures !('A' <= c <= 'Z') ==> r == c
  {
    if 'A' <= c <= 'Z' then (c as int + 32) as char else c
  }

  /** `pat` occurs in `s` at index `i`, ignoring ASCII case. */
  predicate MatchesAtCI(s: string, i: nat, pat: string)
  {
    i + |pat| <= |s| && forall k :: 0 <= k < |pat| ==> Lower(s[i + k]) == Lower(pat[k])
  }

  /** The test `/pat/i.test(s)` for a pattern made of literal characters. */
  predicate ContainsCI(s: string, pat: string)
  {
    exists i :: 0 <= i <= |s| - |pat| && MatchesAtCI(s, i, pat)
  }

  /** `pat` occurs in `s` at index `i`, case-sensitively. */
  predicate OccursAt(s: string, i: nat, pat: string)
  {
    i + |pat| <= |s| && s[i..i + |pat|] == pat
  }

  /** The test `s.includes(pat)`: case-sensitive containment. */
  predicate Contains(s: string, pat: string)
  {
    exists i :: 0 <= i <= |s| - |pat| && OccursAt(s, i, pat)
  }

  /** Any alternative of `/p0|p1|.../i` occurs in `s`. */
  predicate ContainsAnyCI(s: string, pats: seq<string>)
  {
    exists k :: 0 <= k < |pats| && ContainsCI(s, pats[k])
  }

  /** `\d` without the `u` flag: the ASCII digits only. */
  predicate IsDigit(c: char)
  {
    '0' <= c <= '9'
  }

  predicate AllDigits(ds: string)
  {
    forall k :: 0 <= k < |ds| ==> IsDigit(ds[k])
  }

  function DigitValue(c: char): (d: nat)
    requires IsDigit(c)
    ensures d < 10
  {
    c as int - '0' as int
  }

  function DigitChar(d: nat): (c: char)
    requires d < 10
    ensures IsDigit(c) && DigitValue(c) == d
  {
    ('0' as int + d) as char
  }

  /** The number `parseInt(ds, 10)` reads from a run of decimal digits (most significant first). */
  function DigitsValue(ds: string): nat
    requires AllDigits(ds)
  {
    if ds == [] then 0 else DigitsValue(ds[..|ds| - 1]) * 10 + DigitValue(ds[|ds| - 1])
  }

  /** The decimal text of a whole number, as `'' + n` writes it: no sign, no leading zero. */
  function Decimal(n: nat): (s: string)
    ensures |s| > 0 && AllDigits(s)
    ensures |s| > 1 ==> s[0] != '0'
  {
    if n < 10 then [DigitChar(n)] else Decimal(n / 10) + [DigitChar(n % 10)]
  }

  /** Reading back the decimal text of a number gives the number. */
  lemma {:induction false} DecimalRoundTrip(n: nat)
    ensures DigitsValue(Decimal(n)) == n
  {
    var s := Decimal(n);
    if n >= 10 {
      DecimalRoundTrip(n / 10);
      assert s[..|s| - 1] == Decimal(n / 10);
    }
  }

  /** Writing out the number read from a digit run without leading zeros gives the run back. */
  lemma {:induction false} DigitsRoundTrip(ds: string)
    requires |ds| > 0 && AllDigits(ds)
    requires |ds| > 1 ==> ds[0] != '0'
    ensures Decimal(DigitsValue(ds)) == ds
  {
    var init := ds[..|ds| - 1];
    var last := DigitValue(ds[|ds| - 1]);
    if |ds| == 1 {
      assert DigitsValue(ds) == last;
      assert DigitChar(last) == ds[0];
    } else {
      DigitsRoundTrip(init);
      LeadingDigitPositive(init);
      var n := DigitsValue(ds);
      assert n == DigitsValue(init) * 10 + last;
      assert n / 10 == DigitsValue(init) && n % 10 == last;
      assert DigitChar(last) == ds[|ds| - 1];
      assert ds == init + [ds[|ds| - 1]];
    }
  }

  /** A run that does not start with '0' reads as a positive number. */
  lemma {:induction false} LeadingDigitPositive(ds: string)
    requires |ds| > 0 && AllDigits(ds) && ds[0] != '0'
    ensures DigitsValue(ds) > 0
  {
    if |ds| > 1 {
      LeadingDigitPositive(ds[..|ds| - 1]);
    }
  }

  /** The first index at or after `j` that does not hold a digit, or `|s|`: the end of a greedy `\d+`. */
  function DigitRunEnd(s: string, j: nat): (e: nat)
    requires j <= |s|
    ensures j <= e <= |s|
    ensures forall k :: j <= k < e ==> IsDigit(s[k])
    ensures e < |s| ==> !IsDigit(s[e])
    decreases |s| - j
  {
    if j < |s| && IsDigit(s[j]) then DigitRunEnd(s, j + 1) else j
  }
}
