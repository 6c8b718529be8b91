/** analyze-best-sellers.py: every row of a Business Report becomes a product
  * (standard plus B2B units, sales and sessions, and a guarded conversion
  * rate) unless its SKU or child ASIN is blank; the products are ranked by
  * sales, then units, and the first hundred are summarised. */
module BestSellers {
  import opened Common
  import opened Text
  import opened NumParse
  import opened Cells
  import WeeklySales

  // ---------------------------------------------------------------- parsers

  const PoundAndComma: set<char> := {'£', ','}

  /** parse_currency (lines 4-13): blank text is 0.0; otherwise the stripped
    * text loses every '£' and ',' and float() reads the rest, 0.0 when it cannot. */
  function ParseCurrency(value: string): (r: real)
    ensures Strip(value) == [] ==> r == 0.0
    ensures Strip(value) != [] && ParseFloat(RemoveChars(Strip(value), PoundAndComma)).None? ==> r == 0.0
  {
    if Strip(value) == [] then 0.0
    else
      match ParseFloat(RemoveChars(Strip(value), PoundAndComma))
      case Some(x) => x
      case None => 0.0
  }

  /** parse_number (lines 15-24): as parse_currency, but only commas go and int() reads the rest. */
  function ParseNumber(value: string): (r: int)
    ensures Strip(value) == [] ==> r == 0
    ensures Strip(value) != [] && ParseInt(RemoveChars(Strip(value), {','})).None? ==> r == 0
  {
    if Strip(value) == [] then 0
    else
      match ParseInt(RemoveChars(Strip(value), {','}))
      case Some(n) => n
      case None => 0
  }

  /** The weekly comparison strips after deleting the symbols, this script
    * before; float() strips again, so the two parse_currency agree on every text. */
  lemma CurrencyAgreesWithWeekly(value: string)
    ensures ParseCurrency(value) == WeeklySales.ParseCurrency(Str(value))
  {
    var left, right := StripSplit(value);
    var core := Strip(value);
    PaddingKept(left, core, right, PoundAndComma);
    var cleaned := RemoveChars(core, PoundAndComma);
    StripPadded(cleaned, left, right);
    StripIdempotent(cleaned);
    assert WeeklySales.CurrencySymbols == PoundAndComma;
    if core == [] {
      assert cleaned == [];
      NothingParses();
    }
  }

  lemma NothingParses()
    ensures ParseFloat([]) == None
  {
    StripUnpadded([]);
    assert FindChar([], '.', 0) == -1;
  }

  /** Deleting non-space characters leaves the padding around a text alone. */
  lemma PaddingKept(left: string, core: string, right: string, drop: set<char>)
    requires AllSpace(left) && AllSpace(right)
    requires forall c :: c in drop ==> c !in Whitespace
    ensures RemoveChars(left + core + right, drop) == left + RemoveChars(core, drop) + right
  {
    RemoveCharsAppend(left + core, right, drop);
    RemoveCharsAppend(left, core, drop);
    RemoveCharsUntouched(left, drop);
    RemoveCharsUntouched(right, drop);
  }

  /** A thousands-separated count "a,b" reads as the integer ab. */
  lemma NumberWithSeparator(a: string, b: string)
    requires a != [] && AllDigits(a) && AllDigits(b)
    ensures ParseNumber(a + "," + b) == DigitsValue(a + b)
  {
    var t := a + "," + b;
    assert t == a + ([','] + b);
    assert IsDigit(t[0]) && t[|t| - 1] != ' ' && !IsSpace(t[|t| - 1]) by {
      if b == [] { assert t[|t| - 1] == ','; } else { assert t[|t| - 1] == b[|b| - 1]; }
    }
    StripUnpadded(t);
    RemoveCharsUntouched(a, {','});
    RemoveCharsUntouched(b, {','});
    RemoveCharsDropped(',', b, {','});
    RemoveCharsAppend(a, [','] + b, {','});
    assert RemoveChars(t, {','}) == a + b;
    ParseDigits(a + b, DigitsValue(a + b));
  }

  /** What str() prints for an integer is read back by parse_number. */
  lemma NumberRoundTrip(i: int)
    ensures ParseNumber(IntToString(i)) == i
  {
    var s := IntToString(i);
    ParseIntRoundTrip(i);
    IntTextPlain(i);
    RemoveCharsUntouched(s, {','});
    StripUnpadded(s);
  }

  lemma IntTextPlain(i: int)
    ensures var s := IntToString(i);
      s != [] && !IsSpace(s[0]) && !IsSpace(s[|s| - 1]) && forall k :: 0 <= k < |s| ==> s[k] != ','
  {
    var n: nat := if i < 0 then -i else i;
    var d := NatToString(n);
    assert IsDigit(d[|d| - 1]);
    if i < 0 {
      assert IntToString(i) == "-" + d;
    }
  }

  /** int() rejects a decimal point, so a fractional count reads as 0 rather than truncated. */
  lemma FractionalNumberIsZero(whole: string, frac: string)
    requires whole != [] && AllDigits(whole) && AllDigits(frac)
    ensures ParseNumber(whole + "." + frac) == 0
  {
    var t := whole + "." + frac;
    assert IsDigit(t[0]);
    assert t[|whole|] == '.';
    assert !AllDigits(t) by { assert !IsDigit(t[|whole|]); }
    assert t[|t| - 1] == '.' || IsDigit(t[|t| - 1]) by {
      if frac != [] { assert t[|t| - 1] == frac[|frac| - 1]; }
    }
    StripUnpadded(t);
    RemoveCharsUntouched(t, {','});
    NoSignNoInt(t);
  }

  /** Text starting with a digit that is not all digits is no integer. */
  lemma NoSignNoInt(t: string)
    requires t != [] && IsDigit(t[0]) && !AllDigits(t) && Strip(t) == t
    ensures ParseInt(t) == None
  {
    assert ParseUnsigned(t) == None;
  }

  /** "12.5" is one such count. */
  lemma TwelvePointFiveIsZero(t: string)
    requires t == "12.5"
    ensures ParseNumber(t) == 0
  {
    FractionalNumberIsZero("12", "5");
    assert "12" + "." + "5" == t;
  }

  /** A whole number of pounds written "£n" reads as n. */
  lemma PoundsOfInteger(i: int)
    ensures ParseCurrency("£" + IntToString(i)) == i as real
  {
    var s := IntToString(i);
    var t := "£" + s;
    IntTextPlain(i);
    assert t == ['£'] + s;
    assert !IsSpace(t[0]) && t[|t| - 1] == s[|s| - 1];
    StripUnpadded(t);
    RemoveCharsUntouched(s, PoundAndComma);
    RemoveCharsDropped('£', s, PoundAndComma);
    ParseIntRoundTrip(i);
    ParseFloatOfInteger(s);
  }

  /** The defaults used for an absent column ('0' and '£0') both read as zero. */
  lemma DefaultsReadZero(zero: string, poundZero: string)
    requires zero == "0" && poundZero == "£0"
    ensures ParseNumber(zero) == 0 && ParseCurrency(poundZero) == 0.0
  {
    assert IntToString(0) == zero;
    assert poundZero == "£" + IntToString(0);
    NumberRoundTrip(0);
    PoundsOfInteger(0);
  }

  // ---------------------------------------------------------------- rows

  /** A csv.DictReader row: header to text; a header the file lacks is absent. */
  type Row = map<string, string>

  /** row.get(key, default). */
  function Get(row: Row, key: string, default: string): string
  {
    if key in row then row[key] else default
  }

  const UnitsColumn := "Units ordered"
  const UnitsB2BColumn := "Units ordered – B2B"
  const SalesColumn := "Ordered Product Sales"
  const SalesB2BColumn := "Ordered product sales – B2B"
  const SessionsColumn := "Sessions – Total"
  const SessionsB2BColumn := "Sessions – Total – B2B"

  datatype Product = Product(parentAsin: string, childAsin: string, sku: string, title: string,
                             units: int, sales: real, sessions: int, conversion: real)

  /** A text column, stripped: an absent column reads as its default '', which stays ''. */
  function TextField(row: Row, key: string): string
  {
    if key in row then Strip(row[key]) else []
  }

  lemma TextDefault(row: Row, key: string)
    ensures Strip(Get(row, key, "")) == TextField(row, key)
  {
    if key !in row {
      StripUnpadded([]);
    }
  }

  /** A count column through parse_number: an absent column reads as its default '0', that is 0. */
  function NumberField(row: Row, key: string): int
  {
    if key in row then ParseNumber(row[key]) else 0
  }

  /** A sales column through parse_currency: an absent column reads as its default '£0', that is 0.0. */
  function CurrencyField(row: Row, key: string): real
  {
    if key in row then ParseCurrency(row[key]) else 0.0
  }

  lemma FieldDefaults(row: Row, key: string)
    ensures ParseNumber(Get(row, key, "0")) == NumberField(row, key)
    ensures ParseCurrency(Get(row, key, "£0")) == CurrencyField(row, key)
  {
    if key !in row {
      DefaultsReadZero("0", "£0");
    }
  }

  function Units(row: Row): int
  {
    NumberField(row, UnitsColumn) + NumberField(row, UnitsB2BColumn)
  }

  function Sales(row: Row): real
  {
    CurrencyField(row, SalesColumn) + CurrencyField(row, SalesB2BColumn)
  }

  function Sessions(row: Row): int
  {
    NumberField(row, SessionsColumn) + NumberField(row, SessionsB2BColumn)
  }

  /** Units per session as a percentage, 0 without sessions (line 64). */
  function ConversionRate(units: int, sessions: int): real
  {
    if sessions > 0 then units as real / sessions as real * 100.0 else 0.0
  }

  /** The rate is 0 without sessions; otherwise it times the sessions gives
    * 100 times the units, and it is a percentage when units do not exceed sessions. */
  lemma ConversionRateMeans(units: int, sessions: int)
    ensures sessions <= 0 ==> ConversionRate(units, sessions) == 0.0
    ensures sessions > 0 ==> ConversionRate(units, sessions) * sessions as real == units as real * 100.0
    ensures sessions > 0 && 0 <= units <= sessions ==> 0.0 <= ConversionRate(units, sessions) <= 100.0
  {
    if sessions > 0 {
      var q := units as real / sessions as real;
      assert q * sessions as real == units as real;
      if 0 <= units <= sessions {
        assert q <= 1.0;
      }
    }
  }

  /** The skip rule of lines 53-54, on the stripped identifiers. */
  predicate Skipped(row: Row)
  {
    TextField(row, "SKU") == [] || TextField(row, "(Child) ASIN") == []
  }

  /** The product a row contributes, if it is not skipped. */
  function ProductOf(row: Row): (r: Option<Product>)
    ensures r.None? <==> Skipped(row)
    ensures r.Some? ==> r.value.sku != [] && r.value.childAsin != []
    ensures r.Some? ==> (r.value.units == Units(row) && r.value.sales == Sales(row)
                         && r.value.sessions == Sessions(row)
                         && r.value.conversion == ConversionRate(Units(row), Sessions(row)))
  {
    if Skipped(row) then None
    else
      Some(Product(TextField(row, "(Parent) ASIN"), TextField(row, "(Child) ASIN"),
                   TextField(row, "SKU"), TextField(row, "Title"),
                   Units(row), Sales(row), Sessions(row), ConversionRate(Units(row), Sessions(row))))
  }

  /** The products of a file, in file order. */
  function Products(rows: seq<Row>): seq<Product>
  {
    if rows == [] then []
    else
      var rest := Products(rows[..|rows| - 1]);
      if Skipped(rows[|rows| - 1]) then rest else rest + [ProductOf(rows[|rows| - 1]).value]
  }

  predicate HasIdentifiers(p: Product)
  {
    p.sku != [] && p.childAsin != []
  }

  /** Each row yields one product or is skipped. */
  lemma {:induction false} ProductsSkipOnly(rows: seq<Row>)
    ensures |Products(rows)| + Count(rows, Skipped) == |rows|
  {
    if rows != [] {
      var init, last := rows[..|rows| - 1], rows[|rows| - 1];
      ProductsSkipOnly(init);
      CountStep(rows, Skipped);
      ProductsStep(rows);
    }
  }

  /** Products(rows) extends the products of all but the last row by the last row's product, if any. */
  lemma ProductsStep(rows: seq<Row>)
    requires rows != []
    ensures var rest := Products(rows[..|rows| - 1]);
      Products(rows) == if Skipped(rows[|rows| - 1]) then rest else rest + [ProductOf(rows[|rows| - 1]).value]
  {
  }

  /** Every product has both identifiers. */
  lemma {:induction false} ProductsIdentified(rows: seq<Row>)
    ensures forall i :: 0 <= i < |Products(rows)| ==> HasIdentifiers(Products(rows)[i])
  {
    if rows != [] {
      ProductsIdentified(rows[..|rows| - 1]);
      ProductsStep(rows);
    }
  }

  /** The row loop of lines 32-65. */
  method ReadProducts(rows: seq<Row>) returns (products: seq<Product>)
    ensures products == Products(rows)
  {
    products := [];
    for i := 0 to |rows|
      invariant products == Products(rows[..i])
    {
      assert rows[..i + 1][..i] == rows[..i];
      ProductsStep(rows[..i + 1]);
      var product := ReadRow(rows[i]);
      if product.None? {
        continue;
      }
      products := products + [product.value];
    }
    assert rows[..|rows|] == rows;
  }

  /** One pass of the loop body: the fields read, and the skip test of lines 53-54. */
  method ReadRow(row: Row) returns (product: Option<Product>)
    ensures product == ProductOf(row)
  {
    var parentAsin := ReadText(row, "(Parent) ASIN");
    var childAsin := ReadText(row, "(Child) ASIN");
    var sku := ReadText(row, "SKU");
    var title := ReadText(row, "Title");
    var unitsOrdered := ReadCount(row, UnitsColumn);
    var unitsOrderedB2B := ReadCount(row, UnitsB2BColumn);
    var salesValue := ReadAmount(row, SalesColumn);
    var salesValueB2B := ReadAmount(row, SalesB2BColumn);
    var sessionsTotal := ReadCount(row, SessionsColumn);
    var sessionsB2B := ReadCount(row, SessionsB2BColumn);
    var totalUnits := unitsOrdered + unitsOrderedB2B;
    var totalSales := salesValue + salesValueB2B;
    var totalSessions := sessionsTotal + sessionsB2B;
    if sku == [] || childAsin == [] {
      return None;
    }
    var conversion := ConversionRate(totalUnits, totalSessions);
    assert !Skipped(row);
    assert totalUnits == Units(row);
    assert totalSales == Sales(row);
    assert totalSessions == Sessions(row);
    product := Some(Product(parentAsin, childAsin, sku, title, totalUnits, totalSales, totalSessions, conversion));
    assert ProductOf(row).Some?;
    assert ProductOf(row).value == product.value;
  }

  /** row.get(key, '').strip() */
  method ReadText(row: Row, key: string) returns (text: string)
    ensures text == TextField(row, key)
  {
    text := Strip(Get(row, key, ""));
    TextDefault(row, key);
  }

  /** parse_number(row.get(key, '0')) */
  method ReadCount(row: Row, key: string) returns (n: int)
    ensures n == NumberField(row, key)
  {
    n := ParseNumber(Get(row, key, "0"));
    FieldDefaults(row, key);
  }

  /** parse_currency(row.get(key, '£0')) */
  method ReadAmount(row: Row, key: string) returns (x: real)
    ensures x == CurrencyField(row, key)
  {
    x := ParseCurrency(Get(row, key, "£0"));
    FieldDefaults(row, key);
  }

  // ---------------------------------------------------------------- ranking

  /** The sort key of line 68: sales, then units. */
  function SalesKey(p: Product): Key
  {
    Key(p.sales, p.units as real)
  }

  function TotalSales(ps: seq<Product>): real
  {
    if ps == [] then 0.0 else TotalSales(ps[..|ps| - 1]) + ps[|ps| - 1].sales
  }

  function TotalUnits(ps: seq<Product>): int
  {
    if ps == [] then 0 else TotalUnits(ps[..|ps| - 1]) + ps[|ps| - 1].units
  }

  /** The average sale value of line 89: a division by the count, undefined for none. */
  function AverageSale(ps: seq<Product>): (r: Option<real>)
    ensures r.None? <==> ps == []
  {
    if ps == [] then None else Some(TotalSales(ps) / |ps| as real)
  }

  /** The average times the count is the combined sales. */
  lemma AverageSaleMeans(ps: seq<Product>)
    requires ps != []
    ensures AverageSale(ps).value * |ps| as real == TotalSales(ps)
  {
  }

  predicate AsinPresent(p: Product)
  {
    p.childAsin != []
  }

  predicate SkuPresent(p: Product)
  {
    p.sku != []
  }

  predicate AsinMissing(p: Product)
  {
    p.childAsin == []
  }

  predicate SkuMissing(p: Product)
  {
    p.sku == []
  }

  datatype Report = Report(products: seq<Product>, totalSales: real, totalUnits: int,
                           top: seq<Product>, combinedSales: real, combinedUnits: int,
                           average: Option<real>, asins: seq<string>, skus: seq<string>,
                           missingAsins: nat, missingSkus: nat)

  function Identifiers(ps: seq<Product>, asin: bool): (r: seq<string>)
    ensures |r| == |ps|
  {
    seq(|ps|, i requires 0 <= i < |ps| => if asin then ps[i].childAsin else ps[i].sku)
  }

  /** The whole script on the rows of one file. */
  method AnalyzeBestSellers(rows: seq<Row>) returns (report: Report)
    ensures report.products == SortDesc(Products(rows), SalesKey)
    ensures report.top == Head(report.products, 100)
    ensures report.totalSales == TotalSales(report.products) && report.totalUnits == TotalUnits(report.products)
    ensures report.combinedSales == TotalSales(report.top) && report.combinedUnits == TotalUnits(report.top)
    ensures report.average == AverageSale(report.top)
    ensures report.asins == Identifiers(Filter(report.top, AsinPresent), true)
    ensures report.skus == Identifiers(Filter(report.top, SkuPresent), false)
    ensures report.missingAsins == Count(report.top, AsinMissing)
    ensures report.missingSkus == Count(report.top, SkuMissing)
  {
    var products := ReadProducts(rows);
    products := SortDesc(products, SalesKey);
    var top := Head(products, 100);
    report := Report(products, TotalSales(products), TotalUnits(products),
                     top, TotalSales(top), TotalUnits(top), AverageSale(top),
                     Identifiers(Filter(top, AsinPresent), true), Identifiers(Filter(top, SkuPresent), false),
                     Count(top, AsinMissing), Count(top, SkuMissing));
  }

  /** The ranking keeps every product, sorts by (sales, units) descending and keeps
    * file order between equal keys; the top list is the first min(100, n). */
  lemma RankingCorrect(rows: seq<Row>)
    ensures var ranked := SortDesc(Products(rows), SalesKey);
      multiset(ranked) == multiset(Products(rows))
      && (forall i, j :: 0 <= i < j < |ranked| ==>
            ranked[i].sales > ranked[j].sales
            || (ranked[i].sales == ranked[j].sales && ranked[i].units >= ranked[j].units))
      && (forall k :: WithKey(ranked, SalesKey, k) == WithKey(Products(rows), SalesKey, k))
      && |Head(ranked, 100)| == (if |ranked| < 100 then |ranked| else 100)
  {
    var ps := Products(rows);
    SortDescCorrect(ps, SalesKey);
    var ranked := SortDesc(ps, SalesKey);
    forall i, j | 0 <= i < j < |ranked|
      ensures ranked[i].sales > ranked[j].sales
            || (ranked[i].sales == ranked[j].sales && ranked[i].units >= ranked[j].units)
    {
      assert !Above(SalesKey(ranked[j]), SalesKey(ranked[i]));
    }
    forall k ensures WithKey(ranked, SalesKey, k) == WithKey(ps, SalesKey, k) {
      SortDescStable(ps, SalesKey, k);
    }
  }

  /** No product left out of the top list outsells one in it. */
  lemma TopIsBest(rows: seq<Row>)
    ensures var top := Head(SortDesc(Products(rows), SalesKey), 100);
      forall x, y :: x in top && y in Products(rows) && y !in top ==> !Above(SalesKey(y), SalesKey(x))
  {
    TopByCorrect(Products(rows), SalesKey, 100);
  }

  /** The average fails exactly when every row was skipped. */
  lemma AverageFailsIffAllSkipped(rows: seq<Row>)
    ensures (AverageSale(Head(SortDesc(Products(rows), SalesKey), 100)).None?
             <==> Count(rows, Skipped) == |rows|)
  {
    ProductsSkipOnly(rows);
    SortDescCorrect(Products(rows), SalesKey);
  }

  /** The data-quality check can never fire: the skip rule already removed every
    * product without an ASIN or SKU, so both missing counts are 0 and both lists are complete. */
  lemma NothingMissing(rows: seq<Row>)
    ensures var top := Head(SortDesc(Products(rows), SalesKey), 100);
      Count(top, AsinMissing) == 0 && Count(top, SkuMissing) == 0
      && |Filter(top, AsinPresent)| == |top| && |Filter(top, SkuPresent)| == |top|
  {
    var ps := Products(rows);
    ProductsIdentified(rows);
    SortDescCorrect(ps, SalesKey);
    var top := Head(SortDesc(ps, SalesKey), 100);
    forall x | x in top ensures HasIdentifiers(x) {
      assert x in multiset(SortDesc(ps, SalesKey));
      assert x in ps;
    }
    AllKept(top, AsinPresent);
    AllKept(top, SkuPresent);
    NoneKept(top, AsinMissing);
    NoneKept(top, SkuMissing);
  }

  lemma {:induction false} AllKept(s: seq<Product>, p: Product -> bool)
    requires forall x :: x in s ==> p(x)
    ensures |Filter(s, p)| == |s|
  {
    if s != [] {
      AllKept(s[..|s| - 1], p);
      assert s == s[..|s| - 1] + [s[|s| - 1]];
      FilterAppend(s[..|s| - 1], [s[|s| - 1]], p);
    }
  }

  lemma {:induction false} NoneKept(s: seq<Product>, p: Product -> bool)
    requires forall x :: x in s ==> !p(x)
    ensures |Filter(s, p)| == 0
  {
    if s != [] {
      NoneKept(s[..|s| - 1], p);
      assert s == s[..|s| - 1] + [s[|s| - 1]];
      FilterAppend(s[..|s| - 1], [s[|s| - 1]], p);
    }
  }
}
