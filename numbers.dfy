/** Decimal `parseInt` and `parseFloat` as the pages use them: leading white space is
    skipped, an optional sign is read, then the longest numeric prefix; text with no digits
    there is `NaN`, which is `None` here. */
module Numbers {
  import opened Wrappers
  import opened Text

  predicate IsDigit(c: char) { '0' <= c <= '9' }

  function DigitValue(c: char): (d: nat)
    requires IsDigit(c)
    ensures d < 10
  {
    (c as int) - ('0' as int)
  }

  function DigitChar(d: nat): (c: char)
    requires d < 10
    ensures IsDigit(c) && DigitValue(c) == d
  {
    ('0' as int + d) as char
  }

  predicate AllDigits(s: string) {
    forall i :: 0 <= i < |s| ==> IsDigit(s[i])
  }

  /** The length of the run of digits at the front of `s`. */
  function LeadingDigits(s: string): (n: nat)
    ensures n <= |s|
    ensures forall i :: 0 <= i < n ==> IsDigit(s[i])
    ensures n == |s| || !IsDigit(s[n])
  {
    if s != [] && IsDigit(s[0]) then 1 + LeadingDigits(s[1..]) else 0
  }

  /** The value of a string of decimal digits, most significant first. */
  function DigitsValue(ds: string): nat
    requires AllDigits(ds)
  {
    if ds == [] then 0 else 10 * DigitsValue(ds[..|ds| - 1]) + DigitValue(ds[|ds| - 1])
  }

  function Pow10(n: nat): (r: nat)
    ensures r >= 1
  {
    if n == 0 then 1 else 10 * Pow10(n - 1)
  }

  /** An optional leading `-` or `+`: whether it was `-`, and the text after it. */
  function SplitSign(s: string): (bool, string) {
    if s != [] && (s[0] == '-' || s[0] == '+') then (s[0] == '-', s[1..]) else (false, s)
  }

  /** Decimal `parseInt`. */
  function ParseInt(s: string): Option<int> {
    var (negative, u) := SplitSign(TrimStart(s));
    var n := LeadingDigits(u);
    if n == 0 then None
    else
      var v: int := DigitsValue(u[..n]);
      Some(if negative then -v else v)
  }

  /** The exponent part `e[+-]digits` at the front of `s`; 0 when there is none. */
  function ExponentPart(s: string): int {
    if s != [] && (s[0] == 'e' || s[0] == 'E') then
      var (negative, u) := SplitSign(s[1..]);
      var n := LeadingDigits(u);
      if n == 0 then 0
      else
        var v: int := DigitsValue(u[..n]);
        if negative then -v else v
    else 0
  }

  /** `parseFloat`: digits, an optional `.` and fraction digits (at least one digit in
      all), an optional exponent. */
  function ParseFloat(s: string): Option<real> {
    var (negative, u) := SplitSign(TrimStart(s));
    var i := LeadingDigits(u);
    var hasPoint := i < |u| && u[i] == '.';
    var f := if hasPoint then LeadingDigits(u[i + 1..]) else 0;
    if i + f == 0 then None
    else
      var fraction := if hasPoint then u[i + 1..i + 1 + f] else [];
      var mantissa := DigitsValue(u[..i]) as real + DigitsValue(fraction) as real / Pow10(f) as real;
      var e := ExponentPart(u[if hasPoint then i + 1 + f else i..]);
      var magnitude := if e >= 0 then mantissa * Pow10(e) as real else mantissa / Pow10(-e) as real;
      Some(if negative then -magnitude else magnitude)
  }

  /** The decimal numeral of `n`, without leading zeros. */
  function NatToDecimal(n: nat): (s: string)
    ensures |s| >= 1 && AllDigits(s)
  {
    if n < 10 then [DigitChar(n)] else NatToDecimal(n / 10) + [DigitChar(n % 10)]
  }

  /** Reading back a printed numeral gives the number. */
  lemma {:induction false} DecimalValue(n: nat)
    ensures DigitsValue(NatToDecimal(n)) == n
  {
    if n >= 10 {
      var s := NatToDecimal(n);
      assert s[..|s| - 1] == NatToDecimal(n / 10);
      DecimalValue(n / 10);
    }
  }

  /** The digits at the front of `s` are exactly `ds` when what follows is not a digit. */
  lemma LeadingDigitsOf(ds: string, rest: string)
    requires |ds| >= 1 && AllDigits(ds)
    requires rest == [] || !IsDigit(rest[0])
    ensures LeadingDigits(ds + rest) == |ds|
    ensures TrimStart(ds + rest) == ds + rest
    ensures SplitSign(ds + rest) == (false, ds + rest)
    ensures (ds + rest)[..|ds|] == ds
  {
    var s := ds + rest;
    if rest != [] {
      assert s[|ds|] == rest[0];
    }
    assert !IsSpace(s[0]);
  }

  /** `parseInt` reads a numeral followed by non-digit text as the numeral's value
      (`parseInt("12abc", 10) == 12`; with `rest` empty, the round trip). */
  lemma ParseIntNumeral(n: nat, rest: string)
    requires rest == [] || !IsDigit(rest[0])
    ensures ParseInt(NatToDecimal(n) + rest) == Some(n)
  {
    LeadingDigitsOf(NatToDecimal(n), rest);
    DecimalValue(n);
  }

  /** A `-` before a numeral gives the negative value. */
  lemma ParseIntNegative(n: nat)
    ensures ParseInt("-" + NatToDecimal(n)) == Some(-(n as int))
  {
    var d := NatToDecimal(n);
    var s := "-" + d;
    assert !IsSpace(s[0]);
    assert TrimStart(s) == s;
    assert SplitSign(s) == (true, d);
    LeadingDigitsOf(d, []);
    assert d + [] == d;
    DecimalValue(n);
  }

  /** `parseFloat` agrees with `parseInt` on a plain numeral. */
  lemma ParseFloatNumeral(n: nat)
    ensures ParseFloat(NatToDecimal(n)) == Some(n as real)
  {
    var d := NatToDecimal(n);
    LeadingDigitsOf(d, []);
    assert d + [] == d;
    assert DigitsValue([]) == 0;
    assert d[|d|..] == [];
    DecimalValue(n);
  }

  /** Text with no digit at all is `NaN` to both parsers (the empty string included). */
  lemma NoDigitsNoNumber(s: string)
    requires forall i :: 0 <= i < |s| ==> !IsDigit(s[i])
    ensures ParseInt(s) == None
    ensures ParseFloat(s) == None
  {
    var t := TrimStart(s);
    var u := SplitSign(t).1;
    assert forall i :: 0 <= i < |t| ==> t[i] == s[LeadingSpaces(s) + i];
    assert forall i :: 0 <= i < |u| ==> !IsDigit(u[i]);
    if |u| > 1 {
      assert u[1..][0] == u[1];
    }
  }
}
