/**
 * The two number/text conversions the views rely on: decimal rendering of a
 * non-negative integer (`String(n)`, used to build `custom-${Date.now()}`) and
 * JavaScript's `parseFloat`, whose `NaN` is modelled as `None`.
 */
module JsNumber {
  import opened Wrappers

  predicate IsDigit(c: char) { '0' <= c <= '9' }

  function DigitValue(c: char): (d: nat)
    requires IsDigit(c)
    ensures d < 10
  {
    c as int - '0' as int
  }

  function DigitChar(d: nat): (c: char)
    requires d < 10
    ensures IsDigit(c) && DigitValue(c) == d
  {
    ('0' as int + d) as char
  }

  /** Decimal rendering of `n`: one or more digits, without leading zeros. */
  function NatToString(n: nat): (s: string)
    ensures |s| >= 1
    ensures forall i :: 0 <= i < |s| ==> IsDigit(s[i])
    ensures |s| > 1 ==> s[0] != '0'
    decreases n
  {
    if n < 10 then [DigitChar(n)] else NatToString(n / 10) + [DigitChar(n % 10)]
  }

  predicate AllDigits(s: string)
  {
    forall i :: 0 <= i < |s| ==> IsDigit(s[i])
  }

  /** The value of a run of decimal digits, most significant digit first. */
  function DigitsValue(ds: string): nat
    requires AllDigits(ds)
    decreases |ds|
  {
    if ds == [] then 0 else 10 * DigitsValue(ds[..|ds| - 1]) + DigitValue(ds[|ds| - 1])
  }

  /** Reading back the decimal rendering of `n` gives `n`. */
  lemma {:induction false} NatToStringValue(n: nat)
    ensures DigitsValue(NatToString(n)) == n
    decreases n
  {
    if n >= 10 {
      NatToStringValue(n / 10);
      var s := NatToString(n);
      assert s[..|s| - 1] == NatToString(n / 10);
    }
  }

  /** Different numbers render differently, so `custom-${t}` ids from different instants differ. */
  lemma NatToStringInjective(m: nat, n: nat)
    requires NatToString(m) == NatToString(n)
    ensures m == n
  {
    NatToStringValue(m);
    NatToStringValue(n);
  }

  /** The number of leading decimal digits of `s`. */
  function LeadingDigits(s: string): (k: nat)
    ensures k <= |s|
    ensures forall i :: 0 <= i < k ==> IsDigit(s[i])
    ensures k < |s| ==> !IsDigit(s[k])
    decreases |s|
  {
    if s != [] && IsDigit(s[0]) then 1 + LeadingDigits(s[1..]) else 0
  }

  /**
   * The characters `parseFloat` skips before a number: the ECMAScript WhiteSpace and
   * LineTerminator code points (tab to carriage return, space, no-break space, the
   * Unicode space separators, line and paragraph separators, byte-order mark).
   */
  predicate IsSpace(c: char)
  {
    var n := c as int;
    || 9 <= n <= 13 || n == 0x20 || n == 0xA0 || n == 0x1680
    || 0x2000 <= n <= 0x200A || n == 0x2028 || n == 0x2029 || n == 0x202F
    || n == 0x205F || n == 0x3000 || n == 0xFEFF
  }

  function TrimStart(s: string): (t: string)
    ensures |t| <= |s| && t == s[|s| - |t|..]
    ensures t == [] || !IsSpace(t[0])
    decreases |s|
  {
    if s != [] && IsSpace(s[0]) then TrimStart(s[1..]) else s
  }

  function Pow10(n: nat): (r: real)
    ensures r >= 1.0
  {
    if n == 0 then 1.0 else 10.0 * Pow10(n - 1)
  }

  /** `s` without one leading `+` or `-`. */
  function StripSign(s: string): string
  {
    if |s| > 0 && (s[0] == '-' || s[0] == '+') then s[1..] else s
  }

  /**
   * After white space and an optional sign, `s` starts a decimal literal:
   * a digit, or a point followed by a digit.
   */
  predicate StartsNumber(s: string)
  {
    var u := StripSign(TrimStart(s));
    (|u| > 0 && IsDigit(u[0])) || (|u| > 1 && u[0] == '.' && IsDigit(u[1]))
  }

  /** Scale factor of an optional exponent part `e[+|-]digits`; 1 when there is none. */
  function ExponentScale(s: string): (r: real)
    ensures r > 0.0
  {
    if |s| > 0 && (s[0] == 'e' || s[0] == 'E') then
      var v := s[1..];
      var w := StripSign(v);
      var n := LeadingDigits(w);
      if n == 0 then 1.0
      else
        var e := DigitsValue(w[..n]);
        if |v| > 0 && v[0] == '-' then 1.0 / Pow10(e) else Pow10(e)
    else 1.0
  }

  /**
   * The value of the decimal literal at the start of an unsigned string: digits, an
   * optional point and fraction digits (at least one digit in all), then an optional
   * exponent. `None` when no digit starts it.
   */
  function ScanDecimal(u: string): (r: Option<real>)
    ensures r.Some? <==> (|u| > 0 && IsDigit(u[0])) || (|u| > 1 && u[0] == '.' && IsDigit(u[1]))
  {
    var ni := LeadingDigits(u);
    var afterInt := u[ni..];
    var hasPoint := |afterInt| > 0 && afterInt[0] == '.';
    var nf := if hasPoint then LeadingDigits(afterInt[1..]) else 0;
    var fracPart := if hasPoint then afterInt[1..1 + nf] else "";
    var rest := if hasPoint then afterInt[1 + nf..] else afterInt;
    if ni == 0 && nf == 0 then None
    else
      var mantissa := DigitsValue(u[..ni]) as real + DigitsValue(fracPart) as real / Pow10(nf);
      Some(mantissa * ExponentScale(rest))
  }

  /**
   * `parseFloat(s)`: the longest decimal literal after leading white space, with an
   * optional sign, fraction and exponent; anything after it is ignored. `None` is `NaN`.
   */
  function ParseFloat(s: string): (r: Option<real>)
    ensures r.Some? <==> StartsNumber(s)
  {
    var t := TrimStart(s);
    match ScanDecimal(StripSign(t))
    case None => None
    case Some(m) => Some(if |t| > 0 && t[0] == '-' then -m else m)
  }

  /** `parseFloat("")` is `NaN`. */
  lemma ParseEmpty()
    ensures ParseFloat("") == None
  {
  }

  /** Text that starts with anything but white space, a sign, a point or a digit is NaN. */
  lemma ParseNonNumeric(s: string)
    requires s != [] && !IsSpace(s[0]) && !IsDigit(s[0]) && s[0] !in "+-."
    ensures ParseFloat(s) == None
  {
    assert TrimStart(s) == s;
  }

  /** A run of digits is read to its end. */
  lemma LeadingDigitsAll(s: string)
    requires AllDigits(s)
    ensures LeadingDigits(s) == |s|
  {
  }

  /** A non-empty run of digits scans to its value. */
  lemma ScanDigits(u: string)
    requires |u| > 0 && AllDigits(u)
    ensures ScanDecimal(u) == Some(DigitsValue(u) as real)
  {
    LeadingDigitsAll(u);
    assert u[|u|..] == [];
    assert u[..|u|] == u;
  }

  /** The digit run at the start of `u` ends at `n` when the first `n` characters are digits and the next is not. */
  lemma {:induction false} LeadingDigitsUpTo(u: string, n: nat)
    requires n < |u| && AllDigits(u[..n]) && !IsDigit(u[n])
    ensures LeadingDigits(u) == n
    decreases n
  {
    if n > 0 {
      assert u[0] == u[..n][0];
      assert u[1..][..n - 1] == u[1..n];
      LeadingDigitsUpTo(u[1..], n - 1);
    }
  }

  /**
   * A literal whose digit run has length `ni` and is followed by a point, `nf` fraction
   * digits and nothing else scans to its integer part plus its scaled-down fraction.
   */
  lemma ScanPointAt(u: string, ni: nat, nf: nat)
    requires 0 < ni && ni + 1 + nf == |u| && u[ni] == '.'
    requires LeadingDigits(u) == ni && LeadingDigits(u[ni..][1..]) == nf
    ensures ScanDecimal(u) ==
      Some(DigitsValue(u[..ni]) as real + DigitsValue(u[ni + 1..]) as real / Pow10(nf))
  {
    assert u[ni..][1..1 + nf] == u[ni + 1..];
    assert u[ni..][1 + nf..] == [];
  }

  /** Text starting with a digit is read with no white space and no sign to strip. */
  lemma ParseFromDigit(s: string)
    requires |s| > 0 && IsDigit(s[0])
    ensures ParseFloat(s) == ScanDecimal(s)
  {
    assert !IsSpace(s[0]);
    assert TrimStart(s) == s;
    assert StripSign(s) == s;
  }

  /**
   * `parseFloat` reads a `<digits>.<digits>` text, as typed into the cash tender, as its
   * `ni` integer digits plus its `nf` fraction digits scaled down by ten to the `nf`.
   */
  lemma ParseDecimalPoint(s: string, ni: nat, nf: nat)
    requires 0 < ni && ni + 1 + nf == |s| && s[ni] == '.'
    requires AllDigits(s[..ni]) && AllDigits(s[ni + 1..])
    ensures ParseFloat(s) == Some(DigitsValue(s[..ni]) as real + DigitsValue(s[ni + 1..]) as real / Pow10(nf))
  {
    assert s[0] == s[..ni][0];
    ParseFromDigit(s);
    LeadingDigitsUpTo(s, ni);
    assert s[ni..][1..] == s[ni + 1..];
    LeadingDigitsAll(s[ni + 1..]);
    ScanPointAt(s, ni, nf);
  }

  /** `parseFloat` reads back the decimal rendering of any non-negative integer. */
  lemma ParseNatToString(n: nat)
    ensures ParseFloat(NatToString(n)) == Some(n as real)
  {
    var s := NatToString(n);
    assert IsDigit(s[0]) && !IsSpace(s[0]);
    assert TrimStart(s) == s;
    assert StripSign(s) == s;
    ScanDigits(s);
    NatToStringValue(n);
  }
}
