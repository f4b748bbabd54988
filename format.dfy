/** String.format("%.1f", v), over exact reals, and reading its output back. */
module Format {
  import opened Wrappers
  import opened Text
  import opened Decimal

  // ---------------------------------------------------------------------------
  // String.format("%.1f", v)

  function Abs(v: real): real { if v < 0.0 then -v else v }

  /** Tenths of |v|, rounded half up. */
  function Tenths(v: real): nat {
    var x := Abs(v) * 10.0 + 0.5;
    x.Floor
  }

  /** v rounded half up (away from zero) to one decimal place. */
  function RoundedToTenths(v: real): real {
    var r := Tenths(v) as real / 10.0;
    if v < 0.0 then -r else r
  }

  /** The digits of n / 10, a point, and the last digit of n. */
  function TenthsText(n: nat): (s: string)
    ensures |s| >= 3 && s[|s| - 2] == '.'
  {
    NatToString(n / 10) + "." + [DigitChar(n % 10)]
  }

  /** String.format("%.1f", v) in a locale whose decimal separator is '.'. */
  function FormatOneDecimal(v: real): (s: string)
    ensures |s| >= 3 && s[|s| - 2] == '.'
  {
    (if v < 0.0 then "-" else "") + TenthsText(Tenths(v))
  }

  lemma {:induction false} TenthsSplit(n: nat)
    ensures (n / 10) as real + (n % 10) as real / 10.0 == n as real / 10.0
  {
    assert n == (n / 10) * 10 + n % 10;
  }

  /** A single fraction digit stands for that many tenths. */
  lemma {:induction false} OneDigitFraction(d: char)
    requires IsDigit(d)
    ensures ShiftRight(DigitsValue([d]) as real, |[d]|) == DigitValue(d) as real / 10.0
  {
    assert [d][..0] == [];
    assert DigitsValue([d]) == DigitValue(d);
    assert ShiftRight(DigitValue(d) as real, 0) == DigitValue(d) as real;
  }

  /** The unsigned part of the formatted text reads back as tenths. */
  lemma {:induction false} TenthsTextParses(n: nat)
    ensures ParseUnsigned(TenthsText(n)) == Some(n as real / 10.0)
  {
    var q := NatToString(n / 10);
    var d := DigitChar(n % 10);
    ParseUnsignedDotted(q, [d]);
    NatToStringRoundTrip(n / 10);
    var whole: real := (n / 10) as real;
    var tenth: real := (n % 10) as real / 10.0;
    OneDigitFraction(d);
    assert DigitsValue(q) as real == whole;
    assert ParseUnsigned(q + "." + [d]) == Some(whole + tenth);
    TenthsSplit(n);
    assert whole + tenth == n as real / 10.0;
  }

  /** The tenths text is a clean numeral: no white space, sign or type suffix at its ends. */
  lemma {:induction false} TenthsTextShape(n: nat)
    ensures var body := TenthsText(n);
      body != [] && !IsSpace(body[0]) && !IsSpace(body[|body| - 1]) &&
      body[0] != '+' && body[0] != '-' && body[|body| - 1] !in {'f', 'F', 'd', 'D'}
  {
    var q := NatToString(n / 10);
    var body := TenthsText(n);
    assert body[0] == q[0];
    assert IsDigit(q[0]);
  }

  /** Re-reading a formatted value gives the value rounded to tenths. */
  lemma {:induction false} FormatParses(v: real)
    ensures ParseDecimal(FormatOneDecimal(v)) == Some(RoundedToTenths(v))
  {
    var n := Tenths(v);
    TenthsTextParses(n);
    TenthsTextShape(n);
    var r := n as real / 10.0;
    var w := if v < 0.0 then -r else r;
    assert RoundedToTenths(v) == w;
    var s := FormatOneDecimal(v);
    assert s == (if v < 0.0 then "-" else "") + TenthsText(n);
    ParseSigned(s, v < 0.0, TenthsText(n), r);
    assert ParseDecimal(s) == Some(w);
  }
}
