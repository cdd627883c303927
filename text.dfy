/**
 * The few Arduino `String` operations the controller relies on, stated over
 * `seq<char>`: `indexOf` (substring search), `trim` (strip surrounding
 * white space) and `toInt` (C `atol`), plus the decimal rendering used by
 * `String(int)`.
 */
module Text {

  /** `isspace` of the C library in the default locale. */
  predicate IsSpace(c: char) {
    c == ' ' || c == '\t' || c == '\n' || c == '\r' || c == '\U{000B}' || c == '\U{000C}'
  }

  predicate AllSpace(s: string) {
    forall i :: 0 <= i < |s| ==> IsSpace(s[i])
  }

  predicate IsDigit(c: char) {
    '0' <= c <= '9'
  }

  predicate AllDigits(s: string) {
    forall i :: 0 <= i < |s| ==> IsDigit(s[i])
  }

  // ---------------------------------------------------------------- indexOf

  /** `sub` occurs in `s` starting at position `i`. */
  predicate OccursAt(s: string, sub: string, i: int) {
    0 <= i && i + |sub| <= |s| && s[i..i + |sub|] == sub
  }

  /** The first position at or after `from` where `sub` occurs in `s`, or -1 (what `strstr` finds). */
  function FindFrom(s: string, sub: string, from: nat): (r: int)
    ensures r == -1 || (from <= r && OccursAt(s, sub, r))
    ensures r == -1 ==> forall j :: from <= j ==> !OccursAt(s, sub, j)
    ensures r != -1 ==> forall j :: from <= j < r ==> !OccursAt(s, sub, j)
    decreases |s| - from
  {
    if from + |sub| > |s| then -1
    else if s[from..from + |sub|] == sub then from
    else FindFrom(s, sub, from + 1)
  }

  /** `String::indexOf(sub)`: the search starts at index 0, and an empty string has no index 0. */
  function IndexOf(s: string, sub: string): (r: int)
    ensures r == -1 || OccursAt(s, sub, r)
    ensures r != -1 ==> forall j :: 0 <= j < r ==> !OccursAt(s, sub, j)
    ensures |s| > 0 && r == -1 ==> forall j :: !OccursAt(s, sub, j)
    ensures |s| == 0 ==> r == -1
  {
    if |s| == 0 then -1 else FindFrom(s, sub, 0)
  }

  /** The test `s.indexOf(sub) != -1` used throughout the controller. */
  predicate Contains(s: string, sub: string) {
    IndexOf(s, sub) != -1
  }

  /** For a non-empty needle, `Contains` is exactly "occurs somewhere". */
  lemma ContainsIffOccurs(s: string, sub: string)
    requires |sub| > 0
    ensures Contains(s, sub) <==> exists i :: OccursAt(s, sub, i)
  {
    if Contains(s, sub) {
      assert OccursAt(s, sub, IndexOf(s, sub));
    } else if |s| > 0 {
      assert forall j :: 0 <= j ==> !OccursAt(s, sub, j);
    }
  }

  // ------------------------------------------------------------------- trim

  /** The end of the run of white space that starts at `from`. */
  function SpaceRunEnd(s: string, from: nat): (r: nat)
    requires from <= |s|
    ensures from <= r <= |s|
    ensures forall j :: from <= j < r ==> IsSpace(s[j])
    ensures r < |s| ==> !IsSpace(s[r])
    decreases |s| - from
  {
    if from < |s| && IsSpace(s[from]) then SpaceRunEnd(s, from + 1) else from
  }

  /** The start of the run of white space that ends at `stop`, not going below `low`. */
  function SpaceRunStart(s: string, low: nat, stop: nat): (r: nat)
    requires low <= stop <= |s|
    ensures low <= r <= stop
    ensures forall j :: r <= j < stop ==> IsSpace(s[j])
    ensures r > low ==> !IsSpace(s[r - 1])
    decreases stop
  {
    if stop > low && IsSpace(s[stop - 1]) then SpaceRunStart(s, low, stop - 1) else stop
  }

  /** The index of the first character `Trim` keeps: the leading white space is skipped. */
  function TrimStart(s: string): (k: nat)
    ensures k <= |s|
  {
    SpaceRunEnd(s, 0)
  }

  /** `r` is `s` with the white space `s[..k]` in front and the white space after `r` taken off. */
  predicate Unpadded(s: string, r: string, k: int) {
    0 <= k && k + |r| <= |s| && r == s[k..k + |r|] && AllSpace(s[..k]) && AllSpace(s[k + |r|..])
  }

  /** `String::trim`: strips white space from both ends, keeping one contiguous slice of `s`. */
  function Trim(s: string): (r: string)
    ensures r == [] || (!IsSpace(r[0]) && !IsSpace(r[|r| - 1]))
    ensures Unpadded(s, r, TrimStart(s))
  {
    var start := TrimStart(s);
    s[start..SpaceRunStart(s, start, |s|)]
  }

  /** Trimming a string that carries no surrounding white space leaves it as it is; so `Trim` is idempotent. */
  lemma TrimUnpadded(s: string)
    requires s == [] || (!IsSpace(s[0]) && !IsSpace(s[|s| - 1]))
    ensures Trim(s) == s
  {
    if s != [] {
      assert TrimStart(s) == 0;
      assert SpaceRunStart(s, 0, |s|) == |s|;
    }
  }

  lemma TrimIdempotent(s: string)
    ensures Trim(Trim(s)) == Trim(s)
  {
    TrimUnpadded(Trim(s));
  }

  // ------------------------------------------------------------------ toInt

  function DigitValue(c: char): nat
    requires IsDigit(c)
  {
    c as int - '0' as int
  }

  function DigitChar(d: nat): (c: char)
    requires d < 10
    ensures IsDigit(c) && DigitValue(c) == d
  {
    ('0' as int + d) as char
  }

  /** The longest run of decimal digits at the head of `s`. */
  function DigitPrefix(s: string): (r: string)
    ensures r <= s && AllDigits(r)
    ensures |r| < |s| ==> !IsDigit(s[|r|])
  {
    if |s| > 0 && IsDigit(s[0]) then [s[0]] + DigitPrefix(s[1..]) else []
  }

  /** The number a string of decimal digits denotes, most significant digit first. */
  function DigitsValue(ds: string): nat
    requires AllDigits(ds)
  {
    if ds == [] then 0 else 10 * DigitsValue(ds[..|ds| - 1]) + DigitValue(ds[|ds| - 1])
  }

  /**
   * `String::toInt`, which is C `atol`: leading white space is skipped, one
   * optional sign is read, then the longest run of digits; no digits gives 0.
   */
  function ToInt(s: string): (r: int)
    ensures r < 0 ==> TrimStart(s) < |s| && s[TrimStart(s)] == '-'
  {
    var t := s[TrimStart(s)..];
    if |t| > 0 && t[0] == '-' then 0 - DigitsValue(DigitPrefix(t[1..]))
    else if |t| > 0 && t[0] == '+' then DigitsValue(DigitPrefix(t[1..]))
    else DigitsValue(DigitPrefix(t))
  }

  /** `String(n)` for a non-negative `n`: decimal digits without leading zeros. */
  function DecimalText(n: nat): (r: string)
    ensures |r| > 0 && AllDigits(r)
    ensures r[0] != '0' || n == 0
  {
    if n < 10 then [DigitChar(n)] else DecimalText(n / 10) + [DigitChar(n % 10)]
  }

  lemma {:induction false} DigitPrefixOfDigits(ds: string, rest: string)
    requires AllDigits(ds)
    requires rest == [] || !IsDigit(rest[0])
    ensures DigitPrefix(ds + rest) == ds
  {
    if ds != [] {
      assert (ds + rest)[1..] == ds[1..] + rest;
      DigitPrefixOfDigits(ds[1..], rest);
    } else {
      assert ds + rest == rest;
    }
  }

  lemma {:induction false} DigitsValueOfDecimal(n: nat)
    ensures DigitsValue(DecimalText(n)) == n
  {
    var r := DecimalText(n);
    if n >= 10 {
      assert r[..|r| - 1] == DecimalText(n / 10);
      DigitsValueOfDecimal(n / 10);
    }
  }

  /**
   * Parsing the decimal text of `n`, followed by anything that does not
   * continue the number (a line end, say), gives back `n`.
   */
  lemma DecimalRoundTrip(n: nat, rest: string)
    requires rest == [] || !IsDigit(rest[0])
    ensures ToInt(DecimalText(n) + rest) == n
  {
    var d := DecimalText(n);
    assert TrimStart(d + rest) == 0;
    DigitPrefixOfDigits(d, rest);
    DigitsValueOfDecimal(n);
  }

  /** A text with no digit after the optional white space and sign decodes to 0, so a missing file ("") does. */
  lemma NoDigitsIsZero(s: string)
    requires var t := s[TrimStart(s)..];
             var u := if |t| > 0 && (t[0] == '-' || t[0] == '+') then t[1..] else t;
             u == [] || !IsDigit(u[0])
    ensures ToInt(s) == 0
  {
  }
}
