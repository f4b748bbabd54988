/** Double.parseDouble on decimal text, over exact reals. */
module Decimal {
  import opened Wrappers
  import opened Text

  // ---------------------------------------------------------------------------
  // Double.parseDouble on decimal text

  /** x / 10^k, one decimal place at a time. */
  function ShiftRight(x: real, k: nat): real
    decreases k
  {
    if k == 0 then x else ShiftRight(x, k - 1) / 10.0
  }

  /** x * 10^e, one decimal place at a time. */
  function ScaleBy(x: real, e: int): real
    decreases if e >= 0 then e else -e
  {
    if e == 0 then x
    else if e > 0 then ScaleBy(x, e - 1) * 10.0
    else ScaleBy(x, e + 1) / 10.0
  }

  /** `\d*(\.\d*)?` with at least one digit. */
  function ParseMantissa(m: string): Option<real> {
    var dot := IndexOfAny(m, {'.'});
    if dot < 0 then
      if AllDigits(m) then Some(DigitsValue(m) as real) else None
    else
      var ip := m[..dot];
      var fp := m[dot + 1..];
      if OnlyDigits(ip) && OnlyDigits(fp) && |ip| + |fp| > 0
      then Some(DigitsValue(ip) as real + ShiftRight(DigitsValue(fp) as real, |fp|))
      else None
  }

  /** `[+-]?\d+` after the exponent mark. */
  function ParseExponent(x: string): Option<int> {
    if |x| > 0 && (x[0] == '+' || x[0] == '-') then
      if AllDigits(x[1..]) then
        var m: int := DigitsValue(x[1..]);
        Some(if x[0] == '-' then -m else m)
      else None
    else if AllDigits(x) then Some(DigitsValue(x))
    else None
  }

  /** The mantissa and optional exponent of an unsigned decimal numeral. */
  function ParseUnsigned(body: string): Option<real> {
    var e := IndexOfAny(body, {'e', 'E'});
    if e < 0 then ParseMantissa(body)
    else
      var mantissa := ParseMantissa(body[..e]);
      var exponent := ParseExponent(body[e + 1..]);
      if mantissa.None? || exponent.None? then None
      else Some(ScaleBy(mantissa.value, exponent.value))
  }

  /** Text after an optional leading sign. */
  function Unsigned(t: string): string {
    if |t| > 0 && (t[0] == '+' || t[0] == '-') then t[1..] else t
  }

  /** Text without a trailing type suffix f, F, d or D. */
  function DropTypeSuffix(u: string): string {
    if |u| > 0 && u[|u| - 1] in {'f', 'F', 'd', 'D'} then u[..|u| - 1] else u
  }

  /**
   * Double.parseDouble on decimal text: surrounding white space is ignored,
   * then an optional sign, a mantissa, an optional exponent and an optional
   * type suffix f/F/d/D. None stands for NumberFormatException.
   */
  function ParseDecimal(s: string): Option<real> {
    var t := Trim(s);
    match ParseUnsigned(DropTypeSuffix(Unsigned(t)))
    case None => None
    case Some(v) => Some(if |t| > 0 && t[0] == '-' then -v else v)
  }

  lemma {:induction false} TrimSigned(sign: string, body: string)
    requires sign == "" || sign == "-"
    requires body != [] && !IsSpace(body[0]) && !IsSpace(body[|body| - 1])
    ensures Trim(sign + body) == sign + body
  {
    var t := sign + body;
    assert t[|t| - 1] == body[|body| - 1];
    TrimNoop(t);
  }

  lemma {:induction false} UnsignedOfSigned(sign: string, body: string)
    requires sign == "" || sign == "-"
    requires body != [] && body[0] != '+' && body[0] != '-'
    ensures Unsigned(sign + body) == body
  {
    var t := sign + body;
    if sign == "-" { assert t[1..] == body; } else { assert t == body; }
  }

  /** A body with no sign, no suffix and no white space at either end is parsed as it stands. */
  lemma {:induction false} ParseBody(sign: string, body: string, v: real)
    requires sign == "" || sign == "-"
    requires body != [] && !IsSpace(body[0]) && !IsSpace(body[|body| - 1])
    requires body[0] != '+' && body[0] != '-'
    requires body[|body| - 1] !in {'f', 'F', 'd', 'D'}
    requires ParseUnsigned(body) == Some(v)
    ensures ParseDecimal(sign + body) == Some(if sign == "-" then -v else v)
  {
    TrimSigned(sign, body);
    UnsignedOfSigned(sign, body);
    assert DropTypeSuffix(body) == body;
  }

  /** The same, for a text `s` known to be the optional minus sign followed by the body. */
  lemma {:induction false} ParseSigned(s: string, negative: bool, body: string, v: real)
    requires s == (if negative then "-" else "") + body
    requires body != [] && !IsSpace(body[0]) && !IsSpace(body[|body| - 1])
    requires body[0] != '+' && body[0] != '-'
    requires body[|body| - 1] !in {'f', 'F', 'd', 'D'}
    requires ParseUnsigned(body) == Some(v)
    ensures ParseDecimal(s) == Some(if negative then -v else v)
  {
    if negative {
      ParseBody("-", body, v);
    } else {
      ParseBody("", body, v);
      assert s == "" + body;
    }
  }

  lemma {:induction false} DigitsHaveNoMarks(s: string)
    requires OnlyDigits(s)
    ensures IndexOfAny(s, {'e', 'E'}) == -1 && IndexOfAny(s, {'.'}) == -1
  {
  }

  lemma {:induction false} ParseUnsignedDigits(s: string)
    requires AllDigits(s)
    ensures ParseUnsigned(s) == Some(DigitsValue(s) as real)
  {
    DigitsHaveNoMarks(s);
    assert ParseMantissa(s) == Some(DigitsValue(s) as real);
  }

  /** A digit string parses to its integer value. */
  lemma {:induction false} ParseDigits(s: string)
    requires AllDigits(s)
    ensures ParseDecimal(s) == Some(DigitsValue(s) as real)
  {
    ParseUnsignedDigits(s);
    ParseBody("", s, DigitsValue(s) as real);
    assert "" + s == s;
  }

  lemma {:induction false} DottedHasNoExponent(ip: string, fp: string)
    requires OnlyDigits(ip) && OnlyDigits(fp)
    ensures IndexOfAny(ip + "." + fp, {'e', 'E'}) == -1
  {
    var b := ip + "." + fp;
    forall k | 0 <= k < |b| ensures b[k] !in {'e', 'E'} {
      if k < |ip| { assert b[k] == ip[k] && IsDigit(ip[k]); }
      else if k > |ip| { assert b[k] == fp[k - |ip| - 1] && IsDigit(fp[k - |ip| - 1]); }
      else { assert b[k] == '.'; }
    }
  }

  lemma {:induction false} DottedPoint(ip: string, fp: string)
    requires OnlyDigits(ip)
    ensures IndexOfAny(ip + "." + fp, {'.'}) == |ip|
  {
    var b := ip + "." + fp;
    assert b[|ip|] == '.';
    forall k | 0 <= k < |ip| ensures b[k] !in {'.'} { assert b[k] == ip[k]; }
  }

  lemma {:induction false} MantissaOfParts(m: string, ip: string, fp: string)
    requires OnlyDigits(ip) && OnlyDigits(fp) && |ip| + |fp| > 0
    requires IndexOfAny(m, {'.'}) == |ip| && m[..|ip|] == ip && m[|ip| + 1..] == fp
    ensures ParseMantissa(m) == Some(DigitsValue(ip) as real + ShiftRight(DigitsValue(fp) as real, |fp|))
  {
  }

  /** `ip.fp` with digits on either side parses to its fixed-point value. */
  lemma {:induction false} ParseUnsignedDotted(ip: string, fp: string)
    requires OnlyDigits(ip) && OnlyDigits(fp) && |ip| + |fp| > 0
    ensures ParseUnsigned(ip + "." + fp) ==
      Some(DigitsValue(ip) as real + ShiftRight(DigitsValue(fp) as real, |fp|))
  {
    var b := ip + "." + fp;
    DottedHasNoExponent(ip, fp);
    DottedPoint(ip, fp);
    assert b[..|ip|] == ip;
    assert b[|ip| + 1..] == fp;
    MantissaOfParts(b, ip, fp);
  }

  /** `\d+(\.\d+)?`: the shape of a numeric function argument. */
  predicate IsDecimalNumeral(s: string) {
    AllDigits(s) ||
    (var dot := IndexOfAny(s, {'.'});
     dot >= 0 && AllDigits(s[..dot]) && AllDigits(s[dot + 1..]))
  }

  /** Every `\d+(\.\d+)?` numeral is accepted by Double.parseDouble. */
  lemma {:induction false} ParseNumeral(s: string)
    requires IsDecimalNumeral(s)
    ensures ParseDecimal(s).Some?
  {
    if AllDigits(s) {
      ParseDigits(s);
    } else {
      var dot := IndexOfAny(s, {'.'});
      var ip, fp := s[..dot], s[dot + 1..];
      assert s == ip + "." + fp;
      ParseUnsignedDotted(ip, fp);
      assert s[|s| - 1] == fp[|fp| - 1];
      ParseBody("", s, DigitsValue(ip) as real + ShiftRight(DigitsValue(fp) as real, |fp|));
      assert "" + s == s;
    }
  }
}
