/**
 * String helpers shared by the server and the browser code: whitespace
 * trimming (Python's `str.strip()` and JavaScript's `String.prototype.trim()`),
 * repetition, and decimal digits.
 */
module Text {

  /** Whose whitespace a trim removes: Python's `str.strip()` or JavaScript's `String.prototype.trim()`. */
  datatype Runtime = Python | JavaScript

  /**
   * Whitespace to both runtimes: tab, line feed, vertical tab, form feed,
   * carriage return, the space separators of Unicode (space, no-break space,
   * ogham space mark, U+2000 to U+200A, narrow no-break space, medium
   * mathematical space, ideographic space) and the line and paragraph
   * separators.
   */
  predicate IsCommonSpace(c: char) {
    || ('\t' <= c <= '\r') || c == ' ' || c == '\U{00A0}' || c == '\U{1680}'
    || ('\U{2000}' <= c <= '\U{200A}') || c == '\U{2028}' || c == '\U{2029}'
    || c == '\U{202F}' || c == '\U{205F}' || c == '\U{3000}'
  }

  /**
   * The whitespace a runtime strips. Python's `str.isspace()` adds the four
   * information separators U+001C to U+001F and NEXT LINE (U+0085);
   * JavaScript's `trim()` adds the byte order mark (U+FEFF).
   */
  predicate IsSpace(rt: Runtime, c: char) {
    || IsCommonSpace(c)
    || (rt == Python && (('\U{001C}' <= c <= '\U{001F}') || c == '\U{0085}'))
    || (rt == JavaScript && c == '\U{FEFF}')
  }

  predicate AllSpace(rt: Runtime, s: string) {
    forall i :: 0 <= i < |s| ==> IsSpace(rt, s[i])
  }

  /** Neither end of `s` is whitespace. */
  predicate IsTrimmed(rt: Runtime, s: string) {
    s == [] || (!IsSpace(rt, s[0]) && !IsSpace(rt, s[|s| - 1]))
  }

  /** The index of the first non-whitespace character of `s` at or after `i` (`|s|` if there is none). */
  function SkipSpace(rt: Runtime, s: string, i: nat): (n: nat)
    requires i <= |s|
    ensures i <= n <= |s|
    ensures forall j :: i <= j < n ==> IsSpace(rt, s[j])
    ensures n < |s| ==> !IsSpace(rt, s[n])
    decreases |s| - i
  {
    if i < |s| && IsSpace(rt, s[i]) then SkipSpace(rt, s, i + 1) else i
  }

  /** The end of `s[lo..hi]` once its trailing whitespace is dropped. */
  function SkipSpaceBack(rt: Runtime, s: string, lo: nat, hi: nat): (m: nat)
    requires lo <= hi <= |s|
    ensures lo <= m <= hi
    ensures forall j :: m <= j < hi ==> IsSpace(rt, s[j])
    ensures lo < m ==> !IsSpace(rt, s[m - 1])
    decreases hi - lo
  {
    if lo < hi && IsSpace(rt, s[hi - 1]) then SkipSpaceBack(rt, s, lo, hi - 1) else hi
  }

  /** `s` without the runtime's leading and trailing whitespace. */
  function Trim(rt: Runtime, s: string): (r: string)
    ensures IsTrimmed(rt, r)
    ensures |r| <= |s|
    ensures r == [] <==> AllSpace(rt, s)
  {
    var a := SkipSpace(rt, s, 0);
    var b := SkipSpaceBack(rt, s, a, |s|);
    assert AllSpace(rt, s) ==> a == |s|;
    s[a..b]
  }

  /**
   * `Trim` is determined by what it promises: whenever `s` is whitespace,
   * then a non-empty trimmed infix, then whitespace, trimming gives that infix.
   */
  lemma TrimFindsInfix(rt: Runtime, s: string, a: nat, b: nat)
    requires a < b <= |s| && IsTrimmed(rt, s[a..b])
    requires forall j :: 0 <= j < a ==> IsSpace(rt, s[j])
    requires forall j :: b <= j < |s| ==> IsSpace(rt, s[j])
    ensures Trim(rt, s) == s[a..b]
  {
    assert !IsSpace(rt, s[a]) && !IsSpace(rt, s[b - 1]);
    var a' := SkipSpace(rt, s, 0);
    assert a' == a;
    var b' := SkipSpaceBack(rt, s, a, |s|);
    assert b' == b;
  }

  /** Trimming an already trimmed string changes nothing. */
  lemma TrimOfTrimmed(rt: Runtime, s: string)
    requires IsTrimmed(rt, s)
    ensures Trim(rt, s) == s
  {
    if s != [] {
      TrimFindsInfix(rt, s, 0, |s|);
      assert s[0..|s|] == s;
    }
  }

  /** Trimming is idempotent. */
  lemma TrimIdempotent(rt: Runtime, s: string)
    ensures Trim(rt, Trim(rt, s)) == Trim(rt, s)
  {
    TrimOfTrimmed(rt, Trim(rt, s));
  }

  /** `n` copies of `c` (JavaScript's `c.repeat(n)`). */
  function Repeat(c: char, n: nat): (r: string)
    ensures |r| == n
    ensures forall i :: 0 <= i < n ==> r[i] == c
  {
    if n == 0 then [] else Repeat(c, n - 1) + [c]
  }

  predicate IsDigit(c: char) {
    '0' <= c <= '9'
  }

  function DigitChar(d: nat): (c: char)
    requires d < 10
    ensures IsDigit(c)
  {
    "0123456789"[d]
  }

  function DigitValue(c: char): (d: nat)
    requires IsDigit(c)
    ensures d < 10
  {
    (c as int - '0' as int) as nat
  }

  lemma DigitRoundTrip(d: nat)
    requires d < 10
    ensures DigitValue(DigitChar(d)) == d
  {
  }

  /** The decimal notation of `n` with no leading zeros (Python's `str(n)` for a natural number). */
  function NatToString(n: nat): (r: string)
    ensures |r| > 0
    ensures forall i :: 0 <= i < |r| ==> IsDigit(r[i])
  {
    if n < 10 then [DigitChar(n)] else NatToString(n / 10) + [DigitChar(n % 10)]
  }

  /** `NatToString` is decimal notation: its digits read back as `n`, and it starts with '0' only for zero itself. */
  lemma {:induction false} NatToStringRoundTrip(n: nat)
    ensures DigitsValue(NatToString(n)) == n
    ensures NatToString(n)[0] == '0' <==> n == 0
  {
    var r := NatToString(n);
    if n < 10 {
      assert r[..|r| - 1] == [];
      DigitRoundTrip(n);
    } else {
      var front := NatToString(n / 10);
      NatToStringRoundTrip(n / 10);
      assert r == front + [DigitChar(n % 10)];
      assert r[..|r| - 1] == front;
      DigitRoundTrip(n % 10);
    }
  }

  /** Python's `str(n)` for an integer. */
  function IntToString(n: int): (r: string)
    ensures |r| > 0
    ensures n < 0 <==> r[0] == '-'
  {
    if n < 0 then "-" + NatToString(-n) else NatToString(n)
  }

  function Pow10(w: nat): (p: nat)
    ensures p >= 1
  {
    if w == 0 then 1 else 10 * Pow10(w - 1)
  }

  /** The last `w` decimal digits of `n`, zero-padded (the `%0wd` format for `n < 10^w`). */
  function FixedDigits(n: nat, w: nat): (r: string)
    ensures |r| == w
    ensures forall i :: 0 <= i < w ==> IsDigit(r[i])
  {
    if w == 0 then [] else FixedDigits(n / 10, w - 1) + [DigitChar(n % 10)]
  }

  /** The number a string of decimal digits denotes. */
  function DigitsValue(s: string): (v: nat)
    requires forall i :: 0 <= i < |s| ==> IsDigit(s[i])
    ensures v < Pow10(|s|)
  {
    if s == [] then 0 else DigitsValue(s[..|s| - 1]) * 10 + DigitValue(s[|s| - 1])
  }

  /** Reading back a zero-padded number gives the number, when it fits in `w` digits. */
  lemma {:induction false} FixedDigitsRoundTrip(n: nat, w: nat)
    requires n < Pow10(w)
    ensures DigitsValue(FixedDigits(n, w)) == n
  {
    if w > 0 {
      var q, d := n / 10, n % 10;
      assert n == 10 * q + d;
      assert q < Pow10(w - 1);
      FixedDigitsRoundTrip(q, w - 1);
      var r, front := FixedDigits(n, w), FixedDigits(q, w - 1);
      assert r == front + [DigitChar(d)];
      assert r[..|r| - 1] == front;
      DigitRoundTrip(d);
      assert DigitsValue(r) == DigitsValue(front) * 10 + d;
    }
  }
}
