/** Values of a pandas DataFrame column and the per-cell conversions the
  * scripts apply: pd.to_numeric(errors='coerce'), the
  * "astype(str) → delete symbols → to_numeric" cleaning chain, guarded ratios
  * built with np.where, and plain float division with its NaN/inf outcomes. */
module Cells {
  import opened Common
  import opened Text
  import opened NumParse

  /** A cell as read_csv leaves it: missing (NaN), a number, text, or a boolean. */
  datatype Cell = Missing | Num(value: real) | Str(text: string) | Flag(flag: bool)

  /** A column holding text: an `object` column in pandas' terms. Arithmetic or
    * a comparison with a number on such a column raises a TypeError. */
  predicate HoldsText(c: seq<Cell>)
  {
    exists i :: 0 <= i < |c| && c[i].Str?
  }

  /** The numeric reading of a cell; anything but a number is NaN. */
  function AsNumber(c: Cell): (r: Option<real>)
    ensures r.Some? <==> c.Num?
  {
    if c.Num? then Some(c.value) else None
  }

  function FromNumber(x: Option<real>): (c: Cell)
    ensures AsNumber(c) == x
  {
    if x.Some? then Num(x.value) else Missing
  }

  /** pd.to_numeric(errors='coerce'): unparsable text becomes NaN. */
  function Coerce(c: Cell): (r: Cell)
    ensures r.Missing? || r.Num?
    ensures c.Num? ==> r == c
    ensures c.Str? ==> AsNumber(r) == ParseFloat(c.text)
  {
    match c
    case Missing => Missing
    case Num(_) => c
    case Str(s) => FromNumber(ParseFloat(s))
    case Flag(b) => Num(if b then 1.0 else 0.0)
  }

  /** `.astype(str).str.replace(ch, '')` for every ch in `drop`, `.replace('nan', NaN)`,
    * then pd.to_numeric(errors='coerce'). A number prints without those symbols and
    * reads back as itself; a boolean prints as a word and becomes NaN. */
  function CleanText(c: Cell, drop: set<char>): (r: Cell)
    ensures r.Missing? || r.Num?
    ensures c.Num? ==> r == c
    ensures c.Str? ==> AsNumber(r) == ParseFloat(RemoveChars(c.text, drop))
    ensures c.Missing? || c.Flag? ==> r.Missing?
  {
    match c
    case Missing => Missing
    case Num(_) => c
    case Str(s) => FromNumber(ParseFloat(RemoveChars(s, drop)))
    case Flag(_) => Missing
  }

  /** Cleaning twice is cleaning once. */
  lemma CleanTextIdempotent(c: Cell, drop: set<char>)
    ensures CleanText(CleanText(c, drop), drop) == CleanText(c, drop)
    ensures Coerce(Coerce(c)) == Coerce(c)
  {
  }

  /** "12%" with '%' deleted reads as 12, for every integer. */
  lemma CleanTextSuffix(i: int, symbol: char)
    requires symbol != '-' && !IsDigit(symbol)
    ensures CleanText(Str(IntToString(i) + [symbol]), {symbol}) == Num(i as real)
  {
    var s := IntToString(i);
    assert forall k :: 0 <= k < |s| ==> s[k] != symbol by {
      var d := NatToString(if i < 0 then -i else i);
      assert s == d || s == "-" + d;
    }
    RemoveCharsAppend(s, [symbol], {symbol});
    RemoveCharsUntouched(s, {symbol});
    assert RemoveChars([symbol], {symbol}) == [];
    assert RemoveChars(s + [symbol], {symbol}) == s;
    ParseIntRoundTrip(i);
    ParseFloatOfInteger(s);
  }

  /** "£12" with '£' deleted reads as 12, for every integer. */
  lemma CleanTextPrefix(i: int, symbol: char)
    requires symbol != '-' && !IsDigit(symbol)
    ensures CleanText(Str([symbol] + IntToString(i)), {symbol}) == Num(i as real)
  {
    var s := IntToString(i);
    assert forall k :: 0 <= k < |s| ==> s[k] != symbol by {
      var d := NatToString(if i < 0 then -i else i);
      assert s == d || s == "-" + d;
    }
    RemoveCharsAppend([symbol], s, {symbol});
    RemoveCharsUntouched(s, {symbol});
    assert RemoveChars([symbol], {symbol}) == [];
    assert RemoveChars([symbol] + s, {symbol}) == s;
    ParseIntRoundTrip(i);
    ParseFloatOfInteger(s);
  }

  /** np.where(den > 0, num / den * scale, 0): zero unless the denominator is a
    * positive number; a missing numerator with a positive denominator stays NaN. */
  function GuardedRatio(num: Cell, den: Cell, scale: real): (r: Cell)
    ensures !(den.Num? && den.value > 0.0) ==> r == Num(0.0)
    ensures den.Num? && den.value > 0.0 && num.Num? ==>
              r.Num? && r.value * den.value == num.value * scale
    ensures den.Num? && den.value > 0.0 && !num.Num? ==> r.Missing?
  {
    if den.Num? && den.value > 0.0 then
      if num.Num? then Num(num.value / den.value * scale) else Missing
    else Num(0.0)
  }

  lemma GuardedRatioNonNegative(num: Cell, den: Cell, scale: real)
    requires num.Num? && num.value >= 0.0 && scale >= 0.0
    ensures GuardedRatio(num, den, scale).Num?
    ensures GuardedRatio(num, den, scale).value >= 0.0
  {
    if den.Num? && den.value > 0.0 {
      assert num.value / den.value >= 0.0;
    }
  }

  /** Outcome of float division in pandas, where dividing by zero is not an error. */
  datatype Quotient = NaN | Finite(value: real) | Infinite

  /** a / b on pandas floats: NaN in, NaN out; x/0 is infinite, 0/0 is NaN. */
  function Divide(a: Option<real>, b: Option<real>): (q: Quotient)
    ensures q.Finite? <==> a.Some? && b.Some? && b.value != 0.0
    ensures q.Finite? ==> q.value * b.value == a.value
  {
    if a.None? || b.None? then NaN
    else if b.value == 0.0 then (if a.value == 0.0 then NaN else Infinite)
    else Finite(a.value / b.value)
  }

  /** q * 100 on pandas floats: NaN and infinity stay what they are. */
  function Percent(q: Quotient): Quotient
  {
    if q.Finite? then Finite(q.value * 100.0) else q
  }

  // Comparisons as pandas evaluates them: anything compared with NaN is False.

  predicate AtLeast(x: Option<real>, t: real)
  {
    x.Some? && x.value >= t
  }

  predicate AtMost(x: Option<real>, t: real)
  {
    x.Some? && x.value <= t
  }

  predicate Greater(x: Option<real>, t: real)
  {
    x.Some? && x.value > t
  }

  predicate Less(x: Option<real>, t: real)
  {
    x.Some? && x.value < t
  }

  predicate EqualTo(x: Option<real>, t: real)
  {
    x.Some? && x.value == t
  }

  function OrZero(x: Option<real>): real
  {
    if x.Some? then x.value else 0.0
  }
}
