/** The two JavaScript string primitives the core relies on:
    `String.prototype.trim` and the decimal rendering of a non-negative
    integer (`Number.prototype.toString`, template-literal interpolation),
    together with the digit parser that inverts the latter. */
module Strings {

  /** The code points `trim` removes: ECMAScript's WhiteSpace production
      (TAB, VT, FF, SP, NBSP, ZWNBSP and the Unicode "Zs" category) and its
      LineTerminator production (LF, CR, LS, PS). */
  predicate IsWhitespace(c: char)
    ensures c as int < 128 ==> (IsWhitespace(c) <==> c == '\t' || c == '\n' || c == '\U{000B}' || c == '\U{000C}' || c == '\r' || c == ' ')
    ensures '!' <= c <= '~' ==> !IsWhitespace(c)
  {
    || c == '\t' || c == '\n' || c == '\U{000B}' || c == '\U{000C}' || c == '\r'
    || c == ' ' || c == '\U{00A0}' || c == '\U{1680}'
    || ('\U{2000}' <= c <= '\U{200A}')
    || c == '\U{2028}' || c == '\U{2029}' || c == '\U{202F}' || c == '\U{205F}'
    || c == '\U{3000}' || c == '\U{FEFF}'
  }

  predicate AllWhitespace(s: string) {
    forall k :: 0 <= k < |s| ==> IsWhitespace(s[k])
  }

  /** Neither end of `s` is whitespace (vacuously so for the empty string). */
  predicate Bare(s: string) {
    s == [] || (!IsWhitespace(s[0]) && !IsWhitespace(s[|s| - 1]))
  }

  /** `x` sits at offset `lo` of `s` with only whitespace around it. */
  ghost predicate PaddedAt(s: string, x: string, lo: nat) {
    && lo + |x| <= |s|
    && s[lo..lo + |x|] == x
    && AllWhitespace(s[..lo])
    && AllWhitespace(s[lo + |x|..])
  }

  /** How many whitespace characters `s` starts with. */
  function LeadingSpace(s: string): (n: nat)
    ensures n <= |s|
    ensures forall k :: 0 <= k < n ==> IsWhitespace(s[k])
    ensures n < |s| ==> !IsWhitespace(s[n])
  {
    if s != [] && IsWhitespace(s[0]) then 1 + LeadingSpace(s[1..]) else 0
  }

  /** How many whitespace characters `s` ends with. */
  function TrailingSpace(s: string): (n: nat)
    ensures n <= |s|
    ensures forall k :: |s| - n <= k < |s| ==> IsWhitespace(s[k])
    ensures n < |s| ==> !IsWhitespace(s[|s| - 1 - n])
  {
    if s != [] && IsWhitespace(s[|s| - 1]) then 1 + TrailingSpace(s[..|s| - 1]) else 0
  }

  /** `String.prototype.trim`: the core of `s` with whitespace cut from both ends. */
  function Trim(s: string): (r: string)
    ensures Bare(r)
    ensures PaddedAt(s, r, LeadingSpace(s))
    ensures r == [] <==> AllWhitespace(s)
  {
    var lo := LeadingSpace(s);
    if lo == |s| then [] else
    var hi := |s| - TrailingSpace(s);
    assert lo < hi;
    s[lo..hi]
  }

  /** Trim is exactly "strip the whitespace padding": any bare string with
      whitespace around it trims back to itself. */
  lemma TrimPadded(p: string, x: string, q: string)
    requires AllWhitespace(p) && AllWhitespace(q) && Bare(x)
    ensures Trim(p + x + q) == x
  {
    var s := p + x + q;
    if x == [] {
      forall k | 0 <= k < |s| ensures IsWhitespace(s[k]) {
        if k < |p| { assert s[k] == p[k]; } else { assert s[k] == q[k - |p|]; }
      }
    } else {
      var lo := LeadingSpace(s);
      assert s[|p|] == x[0];
      assert lo == |p|;
      var tr := TrailingSpace(s);
      assert s[|p| + |x| - 1] == x[|x| - 1];
      assert tr == |q|;
      assert s[|p|..|p| + |x|] == x;
    }
  }

  lemma TrimIdempotent(s: string)
    ensures Trim(Trim(s)) == Trim(s)
  {
  }

  predicate IsDigit(c: char) {
    '0' <= c <= '9'
  }

  predicate AllDigits(s: string) {
    forall k :: 0 <= k < |s| ==> IsDigit(s[k])
  }

  function DigitChar(d: nat): (c: char)
    requires d < 10
    ensures IsDigit(c)
  {
    ('0' as int + d) as char
  }

  function DigitValue(c: char): (d: nat)
    requires IsDigit(c)
    ensures d < 10 && DigitChar(d) == c
  {
    (c as int - '0' as int) as nat
  }

  /** Decimal rendering of `n`: digits only, no sign, no leading zero
      except for zero itself. This is what JavaScript's `toString` gives
      for an integer below 10^21 that is exactly representable as a double
      (every integer up to 2^53); larger numbers are rendered differently
      there (rounded, or in exponent form). */
  function NatToString(n: nat): (r: string)
    ensures |r| >= 1 && AllDigits(r)
    ensures r[0] == '0' ==> n == 0 && r == "0"
    decreases n
  {
    if n < 10 then [DigitChar(n)] else NatToString(n / 10) + [DigitChar(n % 10)]
  }

  /** The value of a string of decimal digits (read most significant first). */
  function DecimalValue(s: string): nat
    requires AllDigits(s)
  {
    if s == [] then 0 else DecimalValue(s[..|s| - 1]) * 10 + DigitValue(s[|s| - 1])
  }

  lemma {:induction false} DecimalRoundTrip(n: nat)
    ensures DecimalValue(NatToString(n)) == n
    decreases n
  {
    var r := NatToString(n);
    if n >= 10 {
      DecimalRoundTrip(n / 10);
      assert r[..|r| - 1] == NatToString(n / 10);
    }
  }

  /** Distinct numbers render distinctly. */
  lemma NatToStringInjective(a: nat, b: nat)
    requires NatToString(a) == NatToString(b)
    ensures a == b
  {
    DecimalRoundTrip(a);
    DecimalRoundTrip(b);
  }

  /** The longest prefix of `s` made of decimal digits. */
  function LeadingDigits(s: string): (r: string)
    ensures AllDigits(r) && r <= s
    ensures |r| < |s| ==> !IsDigit(s[|r|])
  {
    if s != [] && IsDigit(s[0]) then [s[0]] + LeadingDigits(s[1..]) else []
  }

  lemma {:induction false} LeadingDigitsOf(d: string, rest: string)
    requires AllDigits(d)
    requires rest == [] || !IsDigit(rest[0])
    ensures LeadingDigits(d + rest) == d
  {
    if d == [] {
      assert d + rest == rest;
    } else {
      assert (d + rest)[1..] == d[1..] + rest;
      LeadingDigitsOf(d[1..], rest);
    }
  }

  /** The number written right after `prefix` at the head of `m`, or 0
      when `m` does not start that way or no digit follows. */
  function NumberAfter(prefix: string, m: string): (r: nat)
  {
    if prefix <= m && LeadingDigits(m[|prefix|..]) != []
    then DecimalValue(LeadingDigits(m[|prefix|..]))
    else 0
  }

  /** A message laid out as `prefix`, a decimal number, then text starting
      with a non-digit gives its number back. */
  lemma NumberAfterRoundTrip(prefix: string, n: nat, rest: string)
    requires rest == [] || !IsDigit(rest[0])
    ensures NumberAfter(prefix, prefix + NatToString(n) + rest) == n
  {
    var m := prefix + NatToString(n) + rest;
    assert m[|prefix|..] == NatToString(n) + rest;
    LeadingDigitsOf(NatToString(n), rest);
    DecimalRoundTrip(n);
  }
}
