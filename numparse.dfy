/** Python's int() and float() on text, restricted to plain decimal notation:
  * optional surrounding whitespace, an optional sign, digits, and (for float)
  * at most one decimal point with at least one digit around it. */
module NumParse {
  import opened Common
  import opened Text

  function DigitValue(c: char): nat
    requires IsDigit(c)
  {
    c as int - '0' as int
  }

  function DigitChar(d: nat): (c: char)
    requires d < 10
    ensures IsDigit(c) && DigitValue(c) == d
  {
    ('0' as int + d) as char
  }

  /** The value of a run of decimal digits (leading zeros allowed). */
  function DigitsValue(ds: string): nat
    requires AllDigits(ds)
  {
    if ds == [] then 0 else 10 * DigitsValue(ds[..|ds| - 1]) + DigitValue(ds[|ds| - 1])
  }

  /** An unsigned integer literal: one or more digits. */
  function ParseUnsigned(t: string): (r: Option<nat>)
    ensures r.Some? <==> t != [] && AllDigits(t)
  {
    if t != [] && AllDigits(t) then Some(DigitsValue(t)) else None
  }

  /** int(text). */
  function ParseInt(text: string): Option<int>
  {
    ParseSignedInt(Strip(text))
  }

  function ParseSignedInt(t: string): Option<int>
  {
    if |t| > 0 && (t[0] == '-' || t[0] == '+') then
      match ParseUnsigned(t[1..])
      case None => None
      case Some(n) => Some(if t[0] == '-' then -(n as int) else n as int)
    else
      match ParseUnsigned(t)
      case None => None
      case Some(n) => Some(n)
  }

  /** The value of the numeral whole.frac. */
  function DecimalValue(whole: string, frac: string): real
    requires AllDigits(whole) && AllDigits(frac)
  {
    DigitsValue(whole) as real + Unscale(DigitsValue(frac) as real, |frac|)
  }

  /** An unsigned decimal literal: digits, optionally one '.', at least one digit. */
  function ParseUnsignedDecimal(t: string): Option<real>
  {
    var k := FindChar(t, '.', 0);
    if k == -1 then
      if t != [] && AllDigits(t) then Some(DigitsValue(t) as real) else None
    else
      var whole, frac := t[..k], t[k + 1..];
      if AllDigits(whole) && AllDigits(frac) && |whole| + |frac| > 0 then
        Some(DecimalValue(whole, frac))
      else None
  }

  /** float(text). */
  function ParseFloat(text: string): Option<real>
  {
    ParseSignedDecimal(Strip(text))
  }

  function ParseSignedDecimal(t: string): Option<real>
  {
    if |t| > 0 && (t[0] == '-' || t[0] == '+') then
      match ParseUnsignedDecimal(t[1..])
      case None => None
      case Some(x) => Some(if t[0] == '-' then -x else x)
    else
      ParseUnsignedDecimal(t)
  }

  // ---------------------------------------------------------------- printing

  function NatToString(n: nat): (s: string)
    ensures s != [] && AllDigits(s)
  {
    if n < 10 then [DigitChar(n)] else NatToString(n / 10) + [DigitChar(n % 10)]
  }

  /** str(i) for an integer. */
  function IntToString(i: int): string
  {
    if i < 0 then "-" + NatToString(-i) else NatToString(i)
  }

  lemma {:induction false} NatToStringValue(n: nat)
    ensures DigitsValue(NatToString(n)) == n
  {
    if n >= 10 {
      var s := NatToString(n);
      assert s[..|s| - 1] == NatToString(n / 10);
      NatToStringValue(n / 10);
    }
  }

  /** Parsing what str() prints for an integer gives the integer back. */
  lemma ParseIntRoundTrip(i: int)
    ensures ParseInt(IntToString(i)) == Some(i)
  {
    var n: nat := if i < 0 then -i else i;
    NatToStringValue(n);
    if i < 0 {
      ParseNegative(NatToString(n), n);
    } else {
      ParseDigits(NatToString(n), n);
    }
  }

  lemma ParseDigits(d: string, n: nat)
    requires d != [] && AllDigits(d) && DigitsValue(d) == n
    ensures ParseInt(d) == Some(n)
  {
    PrintableNotSpace(d[0]);
    PrintableNotSpace(d[|d| - 1]);
    StripUnpadded(d);
  }

  lemma ParseNegative(d: string, n: nat)
    requires d != [] && AllDigits(d) && DigitsValue(d) == n
    ensures ParseInt("-" + d) == Some(-(n as int))
  {
    var s := "-" + d;
    SignedUnpadded(d);
    assert s[0] == '-' && s[1..] == d;
    assert ParseUnsigned(s[1..]) == Some(n);
  }

  /** A minus sign before digits is not padded with whitespace. */
  lemma SignedUnpadded(d: string)
    requires d != [] && AllDigits(d)
    ensures Strip("-" + d) == "-" + d
  {
    var s := "-" + d;
    PrintableNotSpace(s[0]);
    assert s[|s| - 1] == d[|d| - 1];
    PrintableNotSpace(s[|s| - 1]);
    StripUnpadded(s);
  }

  /** float() agrees with int() on integer literals. */
  lemma ParseFloatOfInteger(text: string)
    requires ParseInt(text).Some?
    ensures ParseFloat(text) == Some(ParseInt(text).value as real)
  {
    SignedIntAsDecimal(Strip(text));
  }

  lemma SignedIntAsDecimal(t: string)
    requires ParseSignedInt(t).Some?
    ensures ParseSignedDecimal(t) == Some(ParseSignedInt(t).value as real)
  {
    if |t| > 0 && (t[0] == '-' || t[0] == '+') {
      UnsignedAsDecimal(t[1..]);
    } else {
      UnsignedAsDecimal(t);
    }
  }

  lemma UnsignedAsDecimal(u: string)
    requires u != [] && AllDigits(u)
    ensures ParseUnsignedDecimal(u) == Some(DigitsValue(u) as real)
  {
    assert FindChar(u, '.', 0) == -1;
  }

  /** A decimal literal with a point has the value its digits denote. */
  lemma ParseFloatDecimal(whole: string, frac: string)
    requires AllDigits(whole) && AllDigits(frac) && |whole| + |frac| > 0
    ensures ParseFloat(whole + "." + frac) == Some(DecimalValue(whole, frac))
  {
    var t := whole + "." + frac;
    NumeralUnpadded(t);
    SplitAtPoint(t, whole, frac);
  }

  lemma NumeralUnpadded(t: string)
    requires t != []
    requires forall i :: 0 <= i < |t| ==> IsDigit(t[i]) || t[i] == '.'
    ensures Strip(t) == t && t[0] != '-' && t[0] != '+'
  {
    StripUnpadded(t);
  }

  lemma SplitAtPoint(t: string, whole: string, frac: string)
    requires t == whole + "." + frac
    requires AllDigits(whole) && AllDigits(frac) && |whole| + |frac| > 0
    ensures ParseUnsignedDecimal(t) == Some(DecimalValue(whole, frac))
  {
    FindCharFirst(t, '.', 0, |whole|);
    assert t[..|whole|] == whole && t[|whole| + 1..] == frac;
  }

  lemma {:induction false} FindCharFirst(s: string, c: char, from: nat, k: nat)
    requires from <= k < |s| && s[k] == c
    requires forall j :: from <= j < k ==> s[j] != c
    ensures FindChar(s, c, from) == k
    decreases k - from
  {
    if from < k {
      FindCharFirst(s, c, from + 1, k);
    }
  }

  /** Surrounding whitespace never changes what int() or float() read. */
  lemma ParseIgnoresPadding(text: string, left: string, right: string)
    requires AllSpace(left) && AllSpace(right)
    ensures ParseInt(left + text + right) == ParseInt(text)
    ensures ParseFloat(left + text + right) == ParseFloat(text)
  {
    StripPadded(text, left, right);
  }
}
