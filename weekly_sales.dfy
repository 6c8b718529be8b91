/** weekly-sales-comparison.py: two weekly Business Reports are cleaned,
  * joined on the child ASIN, and every ASIN of either week gets one
  * comparison row with the week-over-week changes and a status; the saved
  * report lists the rows by the size of the sales change. */
module WeeklySales {
  import opened Common
  import opened Text
  import opened NumParse
  import opened Cells
  import opened Frames

  // ---------------------------------------------------------------- cell parsers

  /** The text branch of parse_currency and parse_percentage: every character
    * of `drop` deleted, the rest stripped and read by float(); a failure is 0.0. */
  function ParseText(t: string, drop: set<char>): real
  {
    match ParseFloat(Strip(RemoveChars(t, drop)))
    case Some(x) => x
    case None => 0.0
  }

  /** The shared body of parse_currency and parse_percentage: a missing cell or
    * the empty text is 0.0, a number is itself (str() then float() give it
    * back), a boolean prints as a word that float() rejects. */
  function ParseWith(c: Cell, drop: set<char>): (r: real)
    ensures c.Missing? || c == Str("") ==> r == 0.0
    ensures c.Num? ==> r == c.value
    ensures c.Flag? ==> r == 0.0
    ensures c.Str? && c.text != "" ==> r == ParseText(c.text, drop)
  {
    match c
    case Missing => 0.0
    case Num(x) => x
    case Flag(_) => 0.0
    case Str(t) => if t == "" then 0.0 else ParseText(t, drop)
  }

  /** How a particular text reads: its cleaned form is already stripped and parses to x. */
  lemma ParseTextOf(t: string, drop: set<char>, cleaned: string, x: real)
    requires RemoveChars(t, drop) == cleaned && Strip(cleaned) == cleaned
    requires ParseFloat(cleaned) == Some(x)
    ensures ParseText(t, drop) == x
  {
  }

  const CurrencySymbols: set<char> := {'£', ','}

  /** parse_currency (lines 13-22). */
  function ParseCurrency(c: Cell): real
  {
    ParseWith(c, CurrencySymbols)
  }

  /** parse_percentage (lines 24-33). */
  function ParsePercentage(c: Cell): real
  {
    ParseWith(c, {'%'})
  }

  /** An amount written "£a,b.f" reads as the numeral ab.f: the pound sign and
    * the thousands separator are deleted. */
  lemma CurrencyDecimal(a: string, b: string, frac: string)
    requires AllDigits(a) && AllDigits(b) && AllDigits(frac) && |a| + |b| + |frac| > 0
    ensures ParseCurrency(Str("£" + a + "," + b + "." + frac)) == DecimalValue(a + b, frac)
  {
    var t := "£" + a + "," + b + "." + frac;
    var n := (a + b) + "." + frac;
    SeparatorsRemoved(a, b, frac);
    DecimalText(a + b, frac);
    NumeralUnpadded(n);
    ParseFloatDecimal(a + b, frac);
    ParseTextOf(t, CurrencySymbols, n, DecimalValue(a + b, frac));
  }

  lemma SeparatorsRemoved(a: string, b: string, frac: string)
    requires AllDigits(a) && AllDigits(b) && AllDigits(frac)
    ensures RemoveChars("£" + a + "," + b + "." + frac, CurrencySymbols) == (a + b) + "." + frac
  {
    var tail := "." + frac;
    DigitsUntouched(tail);
    DigitsUntouched(a);
    DigitsUntouched(b);
    Regroup6("£", a, ",", b, ".", frac);
    assert "." + frac == tail;
    DropTwo('£', ',', a, b, tail);
    Regroup4(a, b, ".", frac);
  }

  /** Two dropped characters between kept runs vanish. */
  lemma DropTwo(p: char, q: char, a: string, b: string, tail: string)
    requires p in CurrencySymbols && q in CurrencySymbols
    requires RemoveChars(a, CurrencySymbols) == a && RemoveChars(b, CurrencySymbols) == b
    requires RemoveChars(tail, CurrencySymbols) == tail
    ensures RemoveChars([p] + (a + ([q] + (b + tail))), CurrencySymbols) == a + (b + tail)
  {
    RemoveCharsAppend(b, tail, CurrencySymbols);
    RemoveCharsDropped(q, b + tail, CurrencySymbols);
    RemoveCharsAppend(a, [q] + (b + tail), CurrencySymbols);
    RemoveCharsDropped(p, a + ([q] + (b + tail)), CurrencySymbols);
  }

  /** Digits and points are neither a pound sign nor a comma. */
  lemma DigitsUntouched(d: string)
    requires forall i :: 0 <= i < |d| ==> IsDigit(d[i]) || d[i] == '.'
    ensures RemoveChars(d, CurrencySymbols) == d
  {
    RemoveCharsUntouched(d, CurrencySymbols);
  }

  lemma DecimalText(whole: string, frac: string)
    requires AllDigits(whole) && AllDigits(frac)
    ensures var t := whole + "." + frac;
      t != [] && forall i :: 0 <= i < |t| ==> IsDigit(t[i]) || t[i] == '.'
  {
  }

  /** A negative amount "£-w.f" reads as minus the numeral w.f: the minus sign survives. */
  lemma CurrencyNegative(whole: string, frac: string)
    requires AllDigits(whole) && AllDigits(frac) && |whole| + |frac| > 0
    ensures ParseCurrency(Str("£-" + (whole + "." + frac))) == -DecimalValue(whole, frac)
  {
    var n := whole + "." + frac;
    DecimalText(whole, frac);
    DigitsUntouched(n);
    PoundDropped(n);
    NegativeNumeral(whole, frac);
    assert RemoveChars("£-" + n, CurrencySymbols) == "-" + n;
    assert Strip("-" + n) == "-" + n;
    assert ParseFloat("-" + n) == Some(-DecimalValue(whole, frac));

  }

  /** "£-" + n loses its pound sign and keeps the minus. */
  lemma PoundDropped(n: string)
    requires RemoveChars(n, CurrencySymbols) == n
    ensures RemoveChars("£-" + n, CurrencySymbols) == "-" + n
  {
    RemoveCharsKept('-', n, CurrencySymbols);
    RemoveCharsDropped('£', ['-'] + n, CurrencySymbols);
    assert "£-" + n == ['£'] + (['-'] + n);
  }

  lemma NegativeNumeral(whole: string, frac: string)
    requires AllDigits(whole) && AllDigits(frac) && |whole| + |frac| > 0
    ensures var s := "-" + (whole + "." + frac);
      Strip(s) == s && ParseFloat(s) == Some(-DecimalValue(whole, frac))
  {
    var n := whole + "." + frac;
    DecimalText(whole, frac);
    MinusUnpadded(n);
    SplitAtPoint(n, whole, frac);
    MinusSigned(n);
  }

  /** A minus before a numeral leaves nothing for strip() to remove. */
  lemma MinusUnpadded(n: string)
    requires n != [] && forall i :: 0 <= i < |n| ==> IsDigit(n[i]) || n[i] == '.'
    ensures Strip("-" + n) == "-" + n
  {
    var s := "-" + n;
    assert s[|s| - 1] == n[|n| - 1];
    StripUnpadded(s);
  }

  /** A leading minus negates an unsigned decimal. */
  lemma MinusSigned(n: string)
    requires ParseUnsignedDecimal(n).Some?
    ensures ParseSignedDecimal("-" + n) == Some(-ParseUnsignedDecimal(n).value)
  {
    var s := "-" + n;
    assert s[0] == '-' && s[1..] == n;
  }

  /** A percentage written "w.f%" reads as the numeral w.f. */
  lemma PercentageDecimal(whole: string, frac: string)
    requires AllDigits(whole) && AllDigits(frac) && |whole| + |frac| > 0
    ensures ParsePercentage(Str(whole + "." + frac + "%")) == DecimalValue(whole, frac)
  {
    var n := whole + "." + frac;
    DecimalText(whole, frac);
    RemoveCharsUntouched(n, {'%'});
    RemoveCharsAppend(n, "%", {'%'});
    assert RemoveChars("%", {'%'}) == [];
    NumeralUnpadded(n);
    ParseFloatDecimal(whole, frac);
    ParseTextOf(n + "%", {'%'}, n, DecimalValue(whole, frac));
  }

  /** "£1,234.56" reads as 1234.56. */
  lemma PoundAmountExample(t: string)
    requires t == "£1,234.56"
    ensures ParseCurrency(Str(t)) == 1234.56
  {
    CurrencyDecimal("1", "234", "56");
    Spelled1234Point56();
    Value1234Point56();
  }

  /** "£-50.00" reads as -50.0. */
  lemma NegativeAmountExample(t: string)
    requires t == "£-50.00"
    ensures ParseCurrency(Str(t)) == -50.0
  {
    CurrencyNegative("50", "00");
    Spelled50();
    Value50();
  }

  lemma Spelled1234Point56()
    ensures "£" + "1" + "," + "234" + "." + "56" == "£1,234.56" && "1" + "234" == "1234"
  {
  }

  lemma Spelled50()
    ensures "£-" + ("50" + "." + "00") == "£-50.00"
  {
  }

  lemma Value1234Point56()
    ensures DecimalValue("1234", "56") == 1234.56
  {
    Digits1234();
    assert DigitsValue("56") == 56 by {
      assert "56"[..1] == "5";
    }
    assert Unscale(56.0, 2) == 0.56;
  }

  lemma Digits1234()
    ensures DigitsValue("1234") == 1234
  {
    assert "1234"[..3] == "123" && "123"[..2] == "12" && "12"[..1] == "1" && "1"[..0] == "";
    assert DigitsValue("1") == 1;
    assert DigitsValue("12") == 12;
    assert DigitsValue("123") == 123;
  }

  lemma Value50()
    ensures DecimalValue("50", "00") == 50.0
  {
    assert "50"[..1] == "5" && "00"[..1] == "0";
    assert DigitsValue("50") == 50 && DigitsValue("00") == 0;
    assert Unscale(0.0, 2) == 0.0;
  }

  /** "37.5%" reads as 37.5. */
  lemma PercentageExample(t: string)
    requires t == "37.5%"
    ensures ParsePercentage(Str(t)) == 37.5
  {
    PercentageDecimal("37", "5");
    SpelledPercent();
    Value37Point5();
  }

  lemma SpelledPercent()
    ensures "37" + "." + "5" + "%" == "37.5%"
  {
  }

  lemma Value37Point5()
    ensures DecimalValue("37", "5") == 37.5
  {
    assert "37"[..1] == "3" && "5"[..0] == "";
    assert DigitsValue("37") == 37 && DigitsValue("5") == 5;
    assert Unscale(5.0, 1) == 0.5;
  }

  /** Text made of whitespace alone reads as 0.0, like a missing cell. */
  lemma BlankReadsZero(t: string, drop: set<char>)
    requires AllSpace(t)
    ensures ParseWith(Str(t), drop) == 0.0
  {
    var r := RemoveChars(t, drop);
    assert AllSpace(r) by {
      forall i | 0 <= i < |r| ensures r[i] in Whitespace {
        var j :| 0 <= j < |t| && t[j] == r[i];
      }
    }
    StripEmptyIffAllSpace(r);
    assert Strip("") == "" by {
      StripUnpadded("");
    }
  }

  /** A missing percentage and "0%" both read as 0.0. */
  lemma MissingPercentIsZero()
    ensures ParsePercentage(Missing) == 0.0 == ParsePercentage(Str("0%"))
  {
    assert RemoveChars("0%", {'%'}) == "0";
    StripUnpadded("0");
    ParseDigits("0", 0);
    ParseFloatOfInteger("0");
  }

  /** Every integer amount written with a leading '£' reads back as itself. */
  lemma CurrencyOfInteger(i: int)
    ensures ParseCurrency(Str("£" + IntToString(i))) == i as real
  {
    var s := IntToString(i);
    PoundBeforeInteger(i);
    ParseIntRoundTrip(i);
    ParseFloatOfInteger(s);
    StripIdempotentOnNumeral(i);
    ParseTextOf("£" + s, CurrencySymbols, s, i as real);
  }

  /** Removing the currency symbols from "£" and an integer leaves the integer's digits. */
  lemma PoundBeforeInteger(i: int)
    ensures RemoveChars("£" + IntToString(i), CurrencySymbols) == IntToString(i)
  {
    var s := IntToString(i);
    assert forall k :: 0 <= k < |s| ==> s[k] !in CurrencySymbols by {
      var d := NatToString(if i < 0 then -i else i);
      assert s == d || s == "-" + d;
    }
    RemoveCharsAppend("£", s, CurrencySymbols);
    RemoveCharsUntouched(s, CurrencySymbols);
    assert RemoveChars("£", CurrencySymbols) == [];
  }

  /** Every integer percentage written with a trailing '%' reads back as itself. */
  lemma PercentageOfInteger(i: int)
    ensures ParsePercentage(Str(IntToString(i) + "%")) == i as real
  {
    var s := IntToString(i);
    assert forall k :: 0 <= k < |s| ==> s[k] != '%' by {
      var d := NatToString(if i < 0 then -i else i);
      assert s == d || s == "-" + d;
    }
    RemoveCharsAppend(s, "%", {'%'});
    RemoveCharsUntouched(s, {'%'});
    assert RemoveChars("%", {'%'}) == [];
    assert RemoveChars(s + "%", {'%'}) == s;
    ParseIntRoundTrip(i);
    ParseFloatOfInteger(s);
    StripIdempotentOnNumeral(i);
    ParseTextOf(s + "%", {'%'}, s, i as real);
  }

  lemma StripIdempotentOnNumeral(i: int)
    ensures Strip(IntToString(i)) == IntToString(i)
  {
    var d := NatToString(if i < 0 then -i else i);
    var s := IntToString(i);
    assert s == d || s == "-" + d;
    assert IsDigit(s[|s| - 1]);
    StripUnpadded(s);
  }

  // ---------------------------------------------------------------- load_and_clean_data

  const CurrencyColumns: seq<string> := ["Ordered Product Sales", "Ordered product sales – B2B"]

  const PercentageColumns: seq<string> := [
    "Session percentage – Total", "Session percentage – Total – B2B",
    "Page views percentage – Total", "Page views percentage – Total – B2B",
    "Featured Offer (Buy Box) percentage", "Featured Offer (Buy Box) percentage – B2B",
    "Unit Session Percentage", "Unit session percentage – B2B"]

  const NumericColumns: seq<string> := [
    "Sessions – Total", "Sessions – Total – B2B",
    "Page views – Total", "Page views – Total – B2B",
    "Units ordered", "Units ordered – B2B",
    "Total order items", "Total order items – B2B"]

  function CurrencyCell(c: Cell): (r: Cell)
    ensures r.Num?
  {
    Num(ParseCurrency(c))
  }

  function PercentageCell(c: Cell): (r: Cell)
    ensures r.Num?
  {
    Num(ParsePercentage(c))
  }

  /** pd.to_numeric(errors='coerce').fillna(0). */
  function NumericCell(c: Cell): (r: Cell)
    ensures r.Num?
    ensures c.Num? ==> r == c
  {
    var x := Coerce(c);
    if x.Missing? then Num(0.0) else x
  }

  /** The columns after the three conversion passes, on the stripped labels. */
  function CleanedColumns(labels: seq<string>, columns: seq<seq<Cell>>): (r: seq<seq<Cell>>)
    requires |labels| == |columns|
    ensures |r| == |columns|
  {
    var a := Applied(labels, columns, CurrencyColumns, CurrencyCell);
    var b := Applied(labels, a, PercentageColumns, PercentageCell);
    Applied(labels, b, NumericColumns, NumericCell)
  }

  /** After cleaning, every cell of a column the script converts is a number. */
  lemma CleanedColumnsNumeric(labels: seq<string>, columns: seq<seq<Cell>>, k: nat, i: nat)
    requires |labels| == |columns| && k < |columns|
    requires labels[k] in CurrencyColumns || labels[k] in PercentageColumns || labels[k] in NumericColumns
    requires i < |CleanedColumns(labels, columns)[k]|
    ensures CleanedColumns(labels, columns)[k][i].Num?
  {
    var a := Applied(labels, columns, CurrencyColumns, CurrencyCell);
    var b := Applied(labels, a, PercentageColumns, PercentageCell);
    if labels[k] !in NumericColumns {
      if labels[k] !in PercentageColumns {
        assert labels[k] in CurrencyColumns;
        assert b[k] == a[k];
      }
    }
  }

  /** load_and_clean_data on a frame read from the file (lines 35-75). */
  method LoadAndCleanData(df: Frame)
    requires df.Valid()
    modifies df
    ensures df.Valid() && df.height == old(df.height)
    ensures |df.labels| == |old(df.labels)|
    ensures forall k :: 0 <= k < |df.labels| ==> df.labels[k] == Strip(old(df.labels)[k])
    ensures df.columns == CleanedColumns(df.labels, old(df.columns))
  {
    df.Relabel(Strip);
    df.ApplyToColumns(CurrencyColumns, CurrencyCell);
    df.ApplyToColumns(PercentageColumns, PercentageCell);
    df.ApplyToColumns(NumericColumns, NumericCell);
  }

  // ---------------------------------------------------------------- compare_weeks

  /** The fields of one cleaned row that compare_weeks reads; a title or SKU is
    * None when the report has no such column (the 'Unknown' default of .get). */
  datatype WeekRow = WeekRow(asin: string, title: Option<string>, sku: Option<string>,
                             sales: real, units: real, sessions: real, buyBox: real)

  /** The index of the first row of `week` with this ASIN, |week| when there is none. */
  function FirstIndexOf(week: seq<WeekRow>, asin: string): (k: nat)
    ensures k <= |week|
    ensures k < |week| ==> week[k].asin == asin
    ensures forall j :: 0 <= j < k ==> week[j].asin != asin
  {
    if week == [] then 0
    else if week[0].asin == asin then 0
    else 1 + FirstIndexOf(week[1..], asin)
  }

  /** `df.loc[asin]`, keeping the first row when the ASIN repeats. */
  function FirstRow(week: seq<WeekRow>, asin: string): (r: Option<WeekRow>)
    ensures r.None? <==> forall j :: 0 <= j < |week| ==> week[j].asin != asin
  {
    var k := FirstIndexOf(week, asin);
    if k < |week| then Some(week[k]) else None
  }

  function Asins(week: seq<WeekRow>): (r: seq<string>)
    ensures |r| == |week|
    ensures forall i :: 0 <= i < |week| ==> r[i] == week[i].asin
  {
    seq(|week|, i requires 0 <= i < |week| => week[i].asin)
  }

  /** Each key once, at its first appearance. */
  function Dedup(s: seq<string>): (r: seq<string>)
    ensures forall x :: x in r <==> x in s
    ensures Distinct(r)
  {
    if s == [] then []
    else
      var d := Dedup(s[..|s| - 1]);
      if s[|s| - 1] in d then d else d + [s[|s| - 1]]
  }

  /** `set(week28.index) | set(week29.index)`, visited in order of first appearance. */
  function AllAsins(w28: seq<WeekRow>, w29: seq<WeekRow>): (r: seq<string>)
    ensures Distinct(r)
    ensures forall a :: a in r <==>
      ((exists i :: 0 <= i < |w28| && w28[i].asin == a) || (exists i :: 0 <= i < |w29| && w29[i].asin == a))
  {
    var r := Dedup(Asins(w28) + Asins(w29));
    assert forall a :: a in Asins(w28) <==> exists i :: 0 <= i < |w28| && w28[i].asin == a;
    assert forall a :: a in Asins(w29) <==> exists i :: 0 <= i < |w29| && w29[i].asin == a;
    r
  }

  /** The change rule of lines 128 and 137: relative to last week when that
    * was positive, otherwise 100 for any growth from nothing and 0 else. */
  function ChangePercent(before: real, after: real): real
  {
    if before > 0.0 then (after - before) / before * 100.0
    else if after > 0.0 then 100.0
    else 0.0
  }

  /** From a positive base, the thresholds of the status chain are ratios of the two weeks. */
  lemma ChangeThresholds(before: real, after: real)
    requires before > 0.0
    ensures ChangePercent(before, after) > 50.0 <==> after > 1.5 * before
    ensures ChangePercent(before, after) > 20.0 <==> after > 1.2 * before
    ensures ChangePercent(before, after) < -50.0 <==> after < 0.5 * before
    ensures ChangePercent(before, after) < -20.0 <==> after < 0.8 * before
  {
    ChangeCompare(before, after, 0.5);
    ChangeCompare(before, after, 0.2);
    ChangeCompare(before, after, -0.5);
    ChangeCompare(before, after, -0.2);
  }

  /** The relative change exceeds t·100 exactly when after exceeds (1 + t)·before. */
  lemma ChangeCompare(before: real, after: real, t: real)
    requires before > 0.0
    ensures ChangePercent(before, after) > t * 100.0 <==> after > (1.0 + t) * before
    ensures ChangePercent(before, after) < t * 100.0 <==> after < (1.0 + t) * before
  {
    var q := (after - before) / before;
    assert q * before == after - before;
    assert ChangePercent(before, after) == q * 100.0;
    ScaleCompare(q, before, t);
    assert (1.0 + t) * before == before + t * before;
  }

  lemma ScaleCompare(q: real, b: real, t: real)
    requires b > 0.0
    ensures q > t <==> q * b > t * b
    ensures q < t <==> q * b < t * b
  {
    if q > t {
      assert (q - t) * b > 0.0;
    } else if q < t {
      assert (t - q) * b > 0.0;
    }
  }

  datatype Status = NewProduct | Discontinued | MajorIncrease | Increase | MajorDecrease | Decrease | Stable

  /** The status chain of lines 156-169: the first rule that matches. */
  function StatusOf(before: real, after: real, change: real): Status
  {
    if before == 0.0 && after > 0.0 then NewProduct
    else if before > 0.0 && after == 0.0 then Discontinued
    else if change > 50.0 then MajorIncrease
    else if change > 20.0 then Increase
    else if change < -50.0 then MajorDecrease
    else if change < -20.0 then Decrease
    else Stable
  }

  /** With a positive base and a positive current week, the status is decided by the ratio. */
  lemma StatusByRatio(before: real, after: real)
    requires before > 0.0 && after > 0.0
    ensures var s := StatusOf(before, after, ChangePercent(before, after));
      (s == MajorIncrease <==> after > 1.5 * before)
      && (s == Increase <==> 1.2 * before < after <= 1.5 * before)
      && (s == Stable <==> 0.8 * before <= after <= 1.2 * before)
      && (s == Decrease <==> 0.5 * before <= after < 0.8 * before)
      && (s == MajorDecrease <==> after < 0.5 * before)
  {
    ChangeThresholds(before, after);
  }

  /** The thresholds are strict: exactly +50% is an INCREASE, exactly +20% is STABLE. */
  lemma StrictThresholds()
    ensures StatusOf(100.0, 150.0, ChangePercent(100.0, 150.0)) == Increase
    ensures StatusOf(100.0, 120.0, ChangePercent(100.0, 120.0)) == Stable
    ensures StatusOf(100.0, 50.0, ChangePercent(100.0, 50.0)) == Decrease
  {
  }

  /** A product absent last week that sells now is new, one that stopped selling is discontinued. */
  lemma NewAndDiscontinued(before: real, after: real)
    ensures before == 0.0 && after > 0.0 ==> StatusOf(before, after, ChangePercent(before, after)) == NewProduct
    ensures before > 0.0 && after == 0.0 ==> StatusOf(before, after, ChangePercent(before, after)) == Discontinued
  {
  }

  /** One row of the comparison. */
  datatype Comparison = Comparison(
    asin: string, title: string, sku: string,
    sales28: real, sales29: real, salesChange: real, salesChangePercent: real,
    units28: real, units29: real, unitsChange: real, unitsChangePercent: real,
    sessions28: real, sessions29: real, sessionsChange: real,
    buyBox28: real, buyBox29: real, buyBoxChange: real,
    status: Status)

  function Or(x: Option<string>, default: string): string
  {
    if x.Some? then x.value else default
  }

  /** The title and SKU: week 29's row if there is one, else week 28's, else 'Unknown'. */
  function Describe(r28: Option<WeekRow>, r29: Option<WeekRow>): (string, string)
  {
    if r29.Some? then (Or(r29.value.title, "Unknown"), Or(r29.value.sku, "Unknown"))
    else if r28.Some? then (Or(r28.value.title, "Unknown"), Or(r28.value.sku, "Unknown"))
    else ("Unknown", "Unknown")
  }

  /** The comparison row of one ASIN (the body of the loop, lines 93-171). */
  function Compare(asin: string, w28: seq<WeekRow>, w29: seq<WeekRow>): (c: Comparison)
    ensures c.asin == asin
    ensures c.salesChange == c.sales29 - c.sales28 && c.unitsChange == c.units29 - c.units28
    ensures c.sessionsChange == c.sessions29 - c.sessions28 && c.buyBoxChange == c.buyBox29 - c.buyBox28
    ensures c.salesChangePercent == ChangePercent(c.sales28, c.sales29)
    ensures c.unitsChangePercent == ChangePercent(c.units28, c.units29)
    ensures c.status == StatusOf(c.sales28, c.sales29, c.salesChangePercent)
    ensures var r29 := FirstRow(w29, asin);
      r29.Some? ==> c.title == Or(r29.value.title, "Unknown") && c.sku == Or(r29.value.sku, "Unknown")
    ensures var r28, r29 := FirstRow(w28, asin), FirstRow(w29, asin);
      r29.None? && r28.Some? ==> c.title == Or(r28.value.title, "Unknown") && c.sku == Or(r28.value.sku, "Unknown")
    ensures FirstRow(w28, asin).None? && FirstRow(w29, asin).None? ==> c.title == "Unknown" && c.sku == "Unknown"
  {
    var r28 := FirstRow(w28, asin);
    var r29 := FirstRow(w29, asin);
    var d := Describe(r28, r29);
    var s28 := if r28.Some? then r28.value.sales else 0.0;
    var s29 := if r29.Some? then r29.value.sales else 0.0;
    var u28 := if r28.Some? then r28.value.units else 0.0;
    var u29 := if r29.Some? then r29.value.units else 0.0;
    var v28 := if r28.Some? then r28.value.sessions else 0.0;
    var v29 := if r29.Some? then r29.value.sessions else 0.0;
    var b28 := if r28.Some? then r28.value.buyBox else 0.0;
    var b29 := if r29.Some? then r29.value.buyBox else 0.0;
    var change := ChangePercent(s28, s29);
    Comparison(asin, d.0, d.1, s28, s29, s29 - s28, change, u28, u29, u29 - u28, ChangePercent(u28, u29),
               v28, v29, v29 - v28, b28, b29, b29 - b28, StatusOf(s28, s29, change))
  }

  /** An ASIN missing from a week counts as zero sales, units, sessions and buy-box
    * there: new when it sells only in week 29, discontinued when it sold only in week 28. */
  lemma AbsentWeekIsZero(asin: string, w28: seq<WeekRow>, w29: seq<WeekRow>)
    ensures (forall j :: 0 <= j < |w28| ==> w28[j].asin != asin) ==>
      var c := Compare(asin, w28, w29);
      c.sales28 == 0.0 && c.units28 == 0.0 && c.sessions28 == 0.0 && c.buyBox28 == 0.0
      && (c.sales29 > 0.0 ==> c.status == NewProduct)
    ensures (forall j :: 0 <= j < |w29| ==> w29[j].asin != asin) ==>
      var c := Compare(asin, w28, w29);
      c.sales29 == 0.0 && c.units29 == 0.0 && c.sessions29 == 0.0 && c.buyBox29 == 0.0
      && (c.sales28 > 0.0 ==> c.status == Discontinued)
  {
  }

  /** When an ASIN repeats within a week, the figures come from its first row. */
  lemma FirstRowWins(asin: string, w28: seq<WeekRow>, w29: seq<WeekRow>, k: nat)
    requires k < |w29| && w29[k].asin == asin
    requires forall j :: 0 <= j < k ==> w29[j].asin != asin
    ensures var c := Compare(asin, w28, w29);
      c.sales29 == w29[k].sales && c.units29 == w29[k].units
      && c.sessions29 == w29[k].sessions && c.buyBox29 == w29[k].buyBox
      && c.title == Or(w29[k].title, "Unknown") && c.sku == Or(w29[k].sku, "Unknown")
  {
    assert FirstIndexOf(w29, asin) == k;
  }

  /** The same for week 28: the figures come from the first row of the ASIN there. */
  lemma FirstRowWinsEarlierWeek(asin: string, w28: seq<WeekRow>, w29: seq<WeekRow>, k: nat)
    requires k < |w28| && w28[k].asin == asin
    requires forall j :: 0 <= j < k ==> w28[j].asin != asin
    ensures var c := Compare(asin, w28, w29);
      c.sales28 == w28[k].sales && c.units28 == w28[k].units
      && c.sessions28 == w28[k].sessions && c.buyBox28 == w28[k].buyBox
  {
    assert FirstIndexOf(w28, asin) == k;
  }

  /** compare_weeks (lines 77-173): one comparison per distinct ASIN of either week. */
  method CompareWeeks(w28: seq<WeekRow>, w29: seq<WeekRow>) returns (results: seq<Comparison>)
    ensures |results| == |AllAsins(w28, w29)|
    ensures forall i :: 0 <= i < |results| ==> results[i] == Compare(AllAsins(w28, w29)[i], w28, w29)
  {
    var asins := AllAsins(w28, w29);
    results := [];
    for i := 0 to |asins|
      invariant |results| == i
      invariant forall j :: 0 <= j < i ==> results[j] == Compare(asins[j], w28, w29)
    {
      var result := CompareAsin(asins[i], w28, w29);
      results := results + [result];
    }
  }

  /** The body of the loop: the `result` dict filled field by field. */
  method CompareAsin(asin: string, w28: seq<WeekRow>, w29: seq<WeekRow>) returns (result: Comparison)
    ensures result == Compare(asin, w28, w29)
  {
    var r28 := FirstRow(w28, asin);
    var r29 := FirstRow(w29, asin);
    var title, sku := "Unknown", "Unknown";
    if r29.Some? {
      title, sku := Or(r29.value.title, "Unknown"), Or(r29.value.sku, "Unknown");
    } else if r28.Some? {
      title, sku := Or(r28.value.title, "Unknown"), Or(r28.value.sku, "Unknown");
    }
    var s28 := if r28.Some? then r28.value.sales else 0.0;
    var s29 := if r29.Some? then r29.value.sales else 0.0;
    var u28 := if r28.Some? then r28.value.units else 0.0;
    var u29 := if r29.Some? then r29.value.units else 0.0;
    var v28 := if r28.Some? then r28.value.sessions else 0.0;
    var v29 := if r29.Some? then r29.value.sessions else 0.0;
    var b28 := if r28.Some? then r28.value.buyBox else 0.0;
    var b29 := if r29.Some? then r29.value.buyBox else 0.0;
    var change := ChangePercent(s28, s29);
    var status := Classify(s28, s29, change);
    result := Comparison(asin, title, sku, s28, s29, s29 - s28, change,
                         u28, u29, u29 - u28, ChangePercent(u28, u29),
                         v28, v29, v29 - v28, b28, b29, b29 - b28, status);
  }

  /** The if/elif chain of lines 156-169. */
  method Classify(s28: real, s29: real, change: real) returns (status: Status)
    ensures status == StatusOf(s28, s29, change)
  {
    if s28 == 0.0 && s29 > 0.0 {
      status := NewProduct;
    } else if s28 > 0.0 && s29 == 0.0 {
      status := Discontinued;
    } else if change > 50.0 {
      status := MajorIncrease;
    } else if change > 20.0 {
      status := Increase;
    } else if change < -50.0 {
      status := MajorDecrease;
    } else if change < -20.0 {
      status := Decrease;
    } else {
      status := Stable;
    }
  }

  /** The results name every ASIN of both weeks exactly once. */
  lemma OneRowPerAsin(w28: seq<WeekRow>, w29: seq<WeekRow>, results: seq<Comparison>)
    requires |results| == |AllAsins(w28, w29)|
    requires forall i :: 0 <= i < |results| ==> results[i] == Compare(AllAsins(w28, w29)[i], w28, w29)
    ensures forall i, j :: 0 <= i < j < |results| ==> results[i].asin != results[j].asin
    ensures (set i | 0 <= i < |results| :: results[i].asin)
         == (set i | 0 <= i < |w28| :: w28[i].asin) + (set i | 0 <= i < |w29| :: w29[i].asin)
  {
    ResultAsins(w28, w29, results);
    NamedOnce(w28, w29, results, AllAsins(w28, w29));
  }

  lemma ResultAsins(w28: seq<WeekRow>, w29: seq<WeekRow>, results: seq<Comparison>)
    requires |results| == |AllAsins(w28, w29)|
    requires forall i :: 0 <= i < |results| ==> results[i] == Compare(AllAsins(w28, w29)[i], w28, w29)
    ensures forall i :: 0 <= i < |results| ==> results[i].asin == AllAsins(w28, w29)[i]
  {
  }

  /** Rows named after the distinct ASINs of both weeks, in order. */
  lemma NamedOnce(w28: seq<WeekRow>, w29: seq<WeekRow>, results: seq<Comparison>, asins: seq<string>)
    requires asins == AllAsins(w28, w29)
    requires |results| == |asins|
    requires forall i :: 0 <= i < |results| ==> results[i].asin == asins[i]
    ensures forall i, j :: 0 <= i < j < |results| ==> results[i].asin != results[j].asin
    ensures (set i | 0 <= i < |results| :: results[i].asin)
         == (set i | 0 <= i < |w28| :: w28[i].asin) + (set i | 0 <= i < |w29| :: w29[i].asin)
  {
    var left := set i | 0 <= i < |results| :: results[i].asin;
    var right := (set i | 0 <= i < |w28| :: w28[i].asin) + (set i | 0 <= i < |w29| :: w29[i].asin);
    forall a | a in right ensures a in left {
      assert a in asins;
      var i :| 0 <= i < |asins| && asins[i] == a;
      assert results[i].asin == a;
    }
    forall a | a in left ensures a in right {
      var i :| 0 <= i < |results| && results[i].asin == a;
      assert asins[i] == a;
      assert a in asins;
    }
  }

  // ---------------------------------------------------------------- generate_report

  function Abs(x: real): real
  {
    if x < 0.0 then -x else x
  }

  function AbsSalesChange(c: Comparison): Key
  {
    Key(Abs(c.salesChange), 0.0)
  }

  /** The saved report: sorted by the absolute sales change, largest first (lines 231-233). */
  function DetailedReport(results: seq<Comparison>): seq<Comparison>
  {
    SortDesc(results, AbsSalesChange)
  }

  lemma DetailedReportOrder(results: seq<Comparison>)
    ensures var r := DetailedReport(results);
      multiset(r) == multiset(results)
      && forall i, j :: 0 <= i < j < |r| ==> Abs(r[i].salesChange) >= Abs(r[j].salesChange)
  {
    SortDescCorrect(results, AbsSalesChange);
    var r := DetailedReport(results);
    forall i, j | 0 <= i < j < |r| ensures Abs(r[i].salesChange) >= Abs(r[j].salesChange) {
      assert !Above(AbsSalesChange(r[j]), AbsSalesChange(r[i]));
    }
  }

  function TotalSales28(results: seq<Comparison>): real
  {
    if results == [] then 0.0 else TotalSales28(results[..|results| - 1]) + results[|results| - 1].sales28
  }

  function TotalSales29(results: seq<Comparison>): real
  {
    if results == [] then 0.0 else TotalSales29(results[..|results| - 1]) + results[|results| - 1].sales29
  }

  /** The overall change of lines 183-186: relative to week 28's total when that is positive, else 0. */
  function TotalChangePercent(results: seq<Comparison>): (p: real)
    ensures TotalSales28(results) <= 0.0 ==> p == 0.0
    ensures TotalSales28(results) > 0.0 ==>
      (p > 0.0 <==> TotalSales29(results) > TotalSales28(results))
  {
    var t28 := TotalSales28(results);
    var t29 := TotalSales29(results);
    if t28 > 0.0 then
      var q := (t29 - t28) / t28;
      ScaleCompare(q, t28, 0.0);
      q * 100.0
    else 0.0
  }
}
