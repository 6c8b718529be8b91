/** traffic_conversion_analysis.py: clean a Business Report, keep the products
  * whose sessions reach the 70th percentile, rank them by conversion rate and
  * estimate the revenue the 15 weakest would add at the 15 strongest's average
  * conversion. */
module TrafficConversion {
  import opened Common
  import opened Text
  import opened Cells
  import opened Frames
  import BusinessReport

  const SessionsColumn := "Sessions – Total"
  const UnitsColumn := "Units ordered"
  const PageViewsColumn := "Page views – Total"
  const UnitSessionColumn := "Unit Session Percentage"
  const ConversionColumn := "conversion_rate"
  const AovColumn := "aov"

  /** How many products head and tail of the ranking take (top_n, bottom_n). */
  const RankSize: nat := 15

  // ---------------------------------------------------------------- clean_data: headers

  function Stripped(labels: seq<string>): (r: seq<string>)
    ensures |r| == |labels| && forall k :: 0 <= k < |labels| ==> r[k] == Strip(labels[k])
  {
    seq(|labels|, k requires 0 <= k < |labels| => Strip(labels[k]))
  }

  /** Line 29: every header loses its surrounding whitespace; the columns stay. */
  method TrimHeaders(df: Frame)
    requires df.Valid()
    modifies df
    ensures df.Valid() && df.height == old(df.height) && df.columns == old(df.columns)
    ensures df.labels == Stripped(old(df.labels))
    ensures df.Table() == TableOf(Stripped(old(df.labels)), old(df.columns))
  {
    df.Relabel(Strip);
    assert df.labels == Stripped(old(df.labels));
  }

  /** Trimmed headers neither start nor end with whitespace. */
  lemma TrimmedHeadersClean(labels: seq<string>)
    ensures forall k :: 0 <= k < |labels| ==> var h := Stripped(labels)[k];
      h == [] || (!IsSpace(h[0]) && !IsSpace(h[|h| - 1]))
  {
  }

  // ---------------------------------------------------------------- clean_data: values

  /** Lines 33-37: the three count columns, by exact name. */
  predicate IsCountHeader(l: string)
  {
    l == SessionsColumn || l == UnitsColumn || l == PageViewsColumn
  }

  /** pd.to_numeric(errors='coerce') on a whole column. */
  function CoerceColumn(c: seq<Cell>): (r: seq<Cell>)
    ensures |r| == |c| && !HoldsText(r)
  {
    MapCells(Coerce, c)
  }

  /** The cleaning chain of lines 43-44 and 53-54, applied only to a column
    * that holds text; a column of numbers is left alone. */
  function CleanIfText(c: seq<Cell>, drop: set<char>): (r: seq<Cell>)
    ensures |r| == |c| && !HoldsText(r)
    ensures HoldsText(c) ==> forall i :: 0 <= i < |c| ==> r[i] == CleanText(c[i], drop)
    ensures !HoldsText(c) ==> r == c
  {
    if HoldsText(c) then MapCells(x => CleanText(x, drop), c) else c
  }

  /** Lines 40-41: a header naming a percentage, in any letter case. */
  predicate IsPercentageHeader(l: string)
  {
    Contains(Lower(l), "percentage") || l == UnitSessionColumn
  }

  function PercentColumn(c: seq<Cell>): seq<Cell>
  {
    CleanIfText(c, {'%'})
  }

  /** Line 51: a header naming sales. */
  predicate IsSalesHeader(l: string)
  {
    Contains(l, "Sales")
  }

  function CurrencyColumn(c: seq<Cell>): seq<Cell>
  {
    CleanIfText(c, {'£', ','})
  }

  /** Each cleaning of a column is a rewrite: same height, and a second pass changes nothing. */
  lemma CleaningsAreRewrites()
    ensures Rewrite(CoerceColumn) && Rewrite(PercentColumn) && Rewrite(CurrencyColumn)
  {
    forall c ensures CoerceColumn(CoerceColumn(c)) == CoerceColumn(c) {
      forall i | 0 <= i < |c| ensures CoerceColumn(CoerceColumn(c))[i] == CoerceColumn(c)[i] {
        CleanTextIdempotent(c[i], {});
      }
    }
  }

  /** The name test of line 41 is already met by the header it lists by name. */
  lemma UnitSessionNamesPercentage(l: string)
    requires l == UnitSessionColumn
    ensures Contains(Lower(l), "percentage")
  {
    var low := Lower(l);
    assert low[13..23] == "percentage";
    ContainsAt(low, "percentage", 13);
  }

  /** The table after the three cleaning loops of lines 32-57, in source order. */
  function ValuesCleaned(t: map<string, seq<Cell>>): (r: map<string, seq<Cell>>)
    ensures r.Keys == t.Keys
  {
    var counts := Transformed(t, IsCountHeader, CoerceColumn);
    var percents := Transformed(counts, IsPercentageHeader, PercentColumn);
    Transformed(percents, IsSalesHeader, CurrencyColumn)
  }

  /** Cleaning keeps every column's height. */
  lemma ValuesCleanedRectangular(t: map<string, seq<Cell>>, n: nat)
    requires Rectangular(t, n)
    ensures Rectangular(ValuesCleaned(t), n)
  {
    CleaningsAreRewrites();
    var counts := Transformed(t, IsCountHeader, CoerceColumn);
    TransformedRectangular(t, IsCountHeader, CoerceColumn, n);
    var percents := Transformed(counts, IsPercentageHeader, PercentColumn);
    TransformedRectangular(counts, IsPercentageHeader, PercentColumn, n);
    TransformedRectangular(percents, IsSalesHeader, CurrencyColumn, n);
  }

  /** After cleaning, no column named as a count, a percentage or sales holds text. */
  lemma CleanedColumnsHoldNoText(t: map<string, seq<Cell>>, l: string)
    requires l in t && (IsCountHeader(l) || IsPercentageHeader(l) || IsSalesHeader(l))
    ensures !HoldsText(ValuesCleaned(t)[l])
  {
    var counts := Transformed(t, IsCountHeader, CoerceColumn);
    var percents := Transformed(counts, IsPercentageHeader, PercentColumn);
    var r := Transformed(percents, IsSalesHeader, CurrencyColumn);
    if IsSalesHeader(l) {
      assert r[l] == CurrencyColumn(percents[l]);
    } else if IsPercentageHeader(l) {
      assert r[l] == percents[l] == PercentColumn(counts[l]);
    } else {
      assert r[l] == percents[l] == counts[l] == CoerceColumn(t[l]);
    }
  }

  /** Lines 32-57 on the frame. */
  method CleanValues(df: Frame)
    requires df.Valid()
    modifies df
    ensures df.Valid() && df.labels == old(df.labels) && df.height == old(df.height)
    ensures df.Table() == ValuesCleaned(old(df.Table()))
  {
    CleaningsAreRewrites();
    TransformWhere(df, IsCountHeader, CoerceColumn);
    TransformWhere(df, IsPercentageHeader, PercentColumn);
    TransformWhere(df, IsSalesHeader, CurrencyColumn);
  }

  // ---------------------------------------------------------------- clean_data: metrics

  /** Lines 62-74: the conversion column, copied from 'Unit Session Percentage' when
    * the report has it, otherwise units per session in percent (0 without
    * sessions); None when neither is possible, where clean_data returns early. */
  function ConversionValues(t: map<string, seq<Cell>>, n: nat): (r: Option<seq<Cell>>)
    requires Rectangular(t, n)
    ensures r.Some? <==> UnitSessionColumn in t || (SessionsColumn in t && UnitsColumn in t)
    ensures r.Some? ==> |r.value| == n
    ensures UnitSessionColumn in t ==> r == Some(t[UnitSessionColumn])
  {
    if UnitSessionColumn in t then Some(t[UnitSessionColumn])
    else if SessionsColumn in t && UnitsColumn in t then
      Some(ZipCells(BusinessReport.ConversionCell, t[UnitsColumn], t[SessionsColumn]))
    else None
  }

  /** Computed conversion rates are numbers in [0, 100] when every unit count is
    * a number between 0 and the sessions. */
  lemma ComputedConversionBounded(t: map<string, seq<Cell>>, n: nat, i: nat)
    requires Rectangular(t, n) && i < n
    requires UnitSessionColumn !in t && SessionsColumn in t && UnitsColumn in t
    requires t[UnitsColumn][i].Num? && t[UnitsColumn][i].value >= 0.0
    requires t[SessionsColumn][i].Num? ==> t[UnitsColumn][i].value <= t[SessionsColumn][i].value
    ensures var c := ConversionValues(t, n).value[i]; c.Num? && 0.0 <= c.value <= 100.0
  {
    BusinessReport.DerivedMetricGuards(t[UnitsColumn][i], t[SessionsColumn][i], Missing);
  }

  /** Line 79: a header of the plain (not B2B) product sales. */
  predicate IsProductSalesHeader(l: string)
  {
    Contains(l, "Product Sales") && !Contains(l, "B2B")
  }

  /** Lines 77-81: the first product-sales header, searched until found. */
  method FindSalesColumn(labels: seq<string>) returns (at: Option<nat>)
    ensures at == FirstWhere(labels, IsProductSalesHeader)
  {
    at := None;
    var i := 0;
    while i < |labels|
      invariant 0 <= i <= |labels|
      invariant forall j :: 0 <= j < i ==> !IsProductSalesHeader(labels[j])
    {
      if IsProductSalesHeader(labels[i]) {
        at := Some(i);
        break;
      }
      i := i + 1;
    }
    var first := FirstWhere(labels, IsProductSalesHeader);
    if at.Some? {
      assert first.Some? && !(first.value < at.value) && !(at.value < first.value);
    }
  }

  /** Lines 76-88: the order value per unit (0 without units), when a product-sales
    * column and the units exist. */
  function WithOrderValue(labels: seq<string>, t: map<string, seq<Cell>>, n: nat): (r: map<string, seq<Cell>>)
    requires Rectangular(t, n) && Labelled(labels, t)
    ensures Rectangular(r, n)
  {
    var at := FirstWhere(labels, IsProductSalesHeader);
    if at.Some? && UnitsColumn in t then
      t[AovColumn := ZipCells(BusinessReport.PerUnitCell, t[labels[at.value]], t[UnitsColumn])]
    else t
  }

  /** Position k holds the first product-sales header. */
  predicate FirstSalesHeader(labels: seq<string>, k: nat)
  {
    k < |labels| && IsProductSalesHeader(labels[k]) && forall j :: 0 <= j < k ==> !IsProductSalesHeader(labels[j])
  }

  /** The order value is added exactly when a product-sales header and the units
    * exist; it divides the first such column by the units, and nothing else changes. */
  lemma OrderValueMeans(labels: seq<string>, t: map<string, seq<Cell>>, n: nat)
    requires Rectangular(t, n) && Labelled(labels, t)
    ensures var r := WithOrderValue(labels, t, n);
      (AovColumn in r <==> AovColumn in t || (UnitsColumn in t && exists k :: 0 <= k < |labels| && IsProductSalesHeader(labels[k])))
    ensures var r := WithOrderValue(labels, t, n);
      forall k: nat :: FirstSalesHeader(labels, k) && UnitsColumn in t ==>
        r[AovColumn] == ZipCells(BusinessReport.PerUnitCell, t[labels[k]], t[UnitsColumn])
    ensures var r := WithOrderValue(labels, t, n);
      forall l :: l in t && l != AovColumn ==> l in r && r[l] == t[l]
  {
    var at := FirstWhere(labels, IsProductSalesHeader);
    forall k: nat | FirstSalesHeader(labels, k)
      ensures at == Some(k)
    {
      assert at.Some? && !(at.value < k) && !(k < at.value);
    }
  }

  /** The labels after `df[conversion_rate] = ...`. */
  function WithLabel(labels: seq<string>, l: string): seq<string>
  {
    if l in labels then labels else labels + [l]
  }

  /** Lines 62-88: conversion, then the order value unless clean_data returned early. */
  function Enriched(labels: seq<string>, t: map<string, seq<Cell>>, n: nat): (r: map<string, seq<Cell>>)
    requires Rectangular(t, n) && Labelled(labels, t)
    ensures Rectangular(r, n)
  {
    var conversion := ConversionValues(t, n);
    if conversion.None? then t
    else WithOrderValue(WithLabel(labels, ConversionColumn), t[ConversionColumn := conversion.value], n)
  }

  /** The table clean_data leaves, from the table with trimmed headers. */
  function Cleaned(labels: seq<string>, t: map<string, seq<Cell>>, n: nat): (r: map<string, seq<Cell>>)
    requires Rectangular(t, n) && Labelled(labels, t)
    ensures Rectangular(r, n)
  {
    ValuesCleanedRectangular(t, n);
    Enriched(labels, ValuesCleaned(t), n)
  }

  /** Lines 62-74 on the frame; false for the early return. */
  method AddConversion(df: Frame) returns (added: bool)
    requires df.Valid()
    modifies df
    ensures df.Valid() && df.height == old(df.height)
    ensures Rectangular(old(df.Table()), old(df.height))
    ensures added <==> ConversionValues(old(df.Table()), old(df.height)).Some?
    ensures added ==> (df.labels == WithLabel(old(df.labels), ConversionColumn) &&
      df.Table() == old(df.Table())[ConversionColumn := ConversionValues(old(df.Table()), old(df.height)).value])
    ensures !added ==> df.labels == old(df.labels) && df.Table() == old(df.Table())
  {
    df.TableFits();
    if df.Has(UnitSessionColumn) {
      df.Assign(ConversionColumn, df.Column(UnitSessionColumn));
      added := true;
    } else if df.Has(SessionsColumn) && df.Has(UnitsColumn) {
      df.Assign(ConversionColumn, ZipCells(BusinessReport.ConversionCell, df.Column(UnitsColumn), df.Column(SessionsColumn)));
      added := true;
    } else {
      added := false;
    }
  }

  /** Lines 76-88 on the frame. */
  method AddOrderValue(df: Frame)
    requires df.Valid()
    modifies df
    ensures df.Valid() && df.height == old(df.height)
    ensures Rectangular(old(df.Table()), old(df.height)) && Labelled(old(df.labels), old(df.Table()))
    ensures df.Table() == WithOrderValue(old(df.labels), old(df.Table()), old(df.height))
  {
    df.TableFits();
    var at := FindSalesColumn(df.labels);
    if at.Some? && df.Has(UnitsColumn) {
      df.Assign(AovColumn, ZipCells(BusinessReport.PerUnitCell, df.Column(df.labels[at.value]), df.Column(UnitsColumn)));
    }
  }

  /** Lines 24-90: clean_data as a whole. */
  method CleanData(df: Frame)
    requires df.Valid()
    modifies df
    ensures df.Valid() && df.height == old(df.height)
    ensures Rectangular(TableOf(Stripped(old(df.labels)), old(df.columns)), old(df.height))
    ensures Labelled(Stripped(old(df.labels)), TableOf(Stripped(old(df.labels)), old(df.columns)))
    ensures df.Table() == Cleaned(Stripped(old(df.labels)), TableOf(Stripped(old(df.labels)), old(df.columns)), old(df.height))
  {
    TrimHeaders(df);
    df.TableFits();
    ValuesCleanedRectangular(df.Table(), df.height);
    CleanValues(df);
    Enrich(df);
  }

  /** Lines 62-88 on the frame. */
  method Enrich(df: Frame)
    requires df.Valid()
    modifies df
    ensures df.Valid() && df.height == old(df.height)
    ensures Rectangular(old(df.Table()), old(df.height)) && Labelled(old(df.labels), old(df.Table()))
    ensures df.Table() == Enriched(old(df.labels), old(df.Table()), old(df.height))
  {
    df.TableFits();
    var added := AddConversion(df);
    if added {
      AddOrderValue(df);
    }
  }

  // ---------------------------------------------------------------- ranking

  /** The fields of one row the ranking and the estimate read; NaN is None. */
  datatype Product = Product(
    traffic: Option<real>,     // 'Sessions – Total'
    conversion: Option<real>,  // 'conversion_rate'
    units: Option<real>,       // product.get('Units ordered', 0)
    aov: Option<real>,         // product.get('aov', 0)
    sessions: Option<real>,    // the sessions column the estimate finds
    sales: Option<real>)       // the sales column the estimate finds

  /** Lines 421-425: the last header with 'Sessions' and 'Total' and without 'B2B'. */
  predicate IsSessionsTotalHeader(l: string)
  {
    Contains(l, "Sessions") && Contains(l, "Total") && !Contains(l, "B2B")
  }

  /** Lines 421-425: the last header with 'Sales' and 'Total' and without 'B2B'. */
  predicate IsSalesTotalHeader(l: string)
  {
    Contains(l, "Sales") && Contains(l, "Total") && !Contains(l, "B2B")
  }

  /** The number in row i of column l, or `absent` when the column does not exist. */
  function Read(t: map<string, seq<Cell>>, n: nat, l: string, i: nat, absent: Option<real>): Option<real>
    requires Rectangular(t, n) && i < n
  {
    if l in t then AsNumber(t[l][i]) else absent
  }

  function ReadAt(labels: seq<string>, t: map<string, seq<Cell>>, n: nat, at: Option<nat>, i: nat): Option<real>
    requires Rectangular(t, n) && Labelled(labels, t) && i < n
  {
    if at.Some? && at.value < |labels| then AsNumber(t[labels[at.value]][i]) else None
  }

  function ProductAt(labels: seq<string>, t: map<string, seq<Cell>>, n: nat, i: nat): Product
    requires Rectangular(t, n) && Labelled(labels, t) && i < n
  {
    Product(
      Read(t, n, SessionsColumn, i, None),
      Read(t, n, ConversionColumn, i, None),
      Read(t, n, UnitsColumn, i, Some(0.0)),
      Read(t, n, AovColumn, i, Some(0.0)),
      ReadAt(labels, t, n, LastWhere(labels, IsSessionsTotalHeader), i),
      ReadAt(labels, t, n, LastWhere(labels, IsSalesTotalHeader), i))
  }

  /** The rows of the cleaned frame, in order. */
  function Products(labels: seq<string>, t: map<string, seq<Cell>>, n: nat): (r: seq<Product>)
    requires Rectangular(t, n) && Labelled(labels, t)
    ensures |r| == n && forall i :: 0 <= i < n ==> r[i] == ProductAt(labels, t, n, i)
  {
    seq(n, i requires 0 <= i < n => ProductAt(labels, t, n, i))
  }

  /** Line 103: the 70th percentile of the sessions that are numbers. */
  function TrafficThreshold(t: map<string, seq<Cell>>): Option<real>
    requires SessionsColumn in t
  {
    Quantile(Present(Numbers(t[SessionsColumn])), 0.7)
  }

  /** Line 104: sessions at or above the threshold; NaN on either side fails. */
  predicate HighTraffic(p: Product, threshold: Option<real>)
  {
    threshold.Some? && AtLeast(p.traffic, threshold.value)
  }

  /** sort_values('conversion_rate', ascending=False): highest first, NaN last. */
  function ConversionKey(p: Product): Key
  {
    if p.conversion.Some? then Key(1.0, p.conversion.value) else Key(0.0, 0.0)
  }

  /** Lines 103-110: the high-traffic products by falling conversion. */
  function HighTrafficSorted(products: seq<Product>, threshold: Option<real>): seq<Product>
  {
    SortDesc(Filter(products, p => HighTraffic(p, threshold)), ConversionKey)
  }

  /** The ranking holds exactly the high-traffic products, each as often as in
    * the report, with conversions falling and every NaN after every number. */
  lemma RankingCorrect(products: seq<Product>, threshold: Option<real>)
    ensures var s := HighTrafficSorted(products, threshold);
      multiset(s) == multiset(Filter(products, p => HighTraffic(p, threshold)))
    ensures var s := HighTrafficSorted(products, threshold);
      forall p :: p in s <==> p in products && HighTraffic(p, threshold)
    ensures var s := HighTrafficSorted(products, threshold);
      forall i, j :: 0 <= i < j < |s| && s[j].conversion.Some? ==>
        s[i].conversion.Some? && s[i].conversion.value >= s[j].conversion.value
  {
    var high := Filter(products, p => HighTraffic(p, threshold));
    SortDescCorrect(high, ConversionKey);
    var s := HighTrafficSorted(products, threshold);
    forall p ensures p in s <==> p in high {
      assert p in s <==> p in multiset(s);
      assert p in high <==> p in multiset(high);
    }
    forall i, j | 0 <= i < j < |s| && s[j].conversion.Some?
      ensures s[i].conversion.Some? && s[i].conversion.value >= s[j].conversion.value
    {
      assert !Above(ConversionKey(s[j]), ConversionKey(s[i]));
    }
  }

  // ---------------------------------------------------------------- calculate_optimization_potential (lines 404-466)

  /** What the estimate reports for one pair of head and tail. */
  datatype Potential =
    | Insufficient     // line 409: a side is empty
    | ColumnsNotFound  // line 427: no sessions or no sales total header
    | Estimate(target: Option<real>, additional: Option<real>, uplift: Option<real>)

  function Conversions(ps: seq<Product>): (r: seq<Option<real>>)
    ensures |r| == |ps| && forall i :: 0 <= i < |ps| ==> r[i] == ps[i].conversion
  {
    seq(|ps|, i requires 0 <= i < |ps| => ps[i].conversion)
  }

  function SalesOf(ps: seq<Product>): (r: seq<Option<real>>)
    ensures |r| == |ps| && forall i :: 0 <= i < |ps| ==> r[i] == ps[i].sales
  {
    seq(|ps|, i requires 0 <= i < |ps| => ps[i].sales)
  }

  /** Lines 439-442: the stored order value, or sales per unit when it is 0 and units were sold. */
  function OrderValue(p: Product): Option<real>
  {
    if p.aov == Some(0.0) && Greater(p.units, 0.0) then
      (if p.sales.Some? then Some(p.sales.value / p.units.value) else None)
    else p.aov
  }

  /** Lines 445-449: the revenue of the sessions converting at the target
    * instead of at the product's own rate; NaN anywhere makes it NaN. */
  function Additional(p: Product, target: Option<real>): Option<real>
  {
    var aov := OrderValue(p);
    if target.Some? && p.sessions.Some? && p.conversion.Some? && aov.Some? then
      var s := p.sessions.value;
      Some((s * (target.value / 100.0) - s * (p.conversion.value / 100.0)) * aov.value)
    else None
  }

  /** NaN-propagating addition (`total += x` on floats). */
  function Plus(a: Option<real>, b: Option<real>): (r: Option<real>)
    ensures r.Some? <==> a.Some? && b.Some?
    ensures r.Some? ==> r.value == a.value + b.value
  {
    if a.Some? && b.Some? then Some(a.value + b.value) else None
  }

  /** The total of line 451 over the tail. */
  function AddedRevenue(ps: seq<Product>, target: Option<real>): (r: Option<real>)
    ensures r.Some? <==> forall i :: 0 <= i < |ps| ==> Additional(ps[i], target).Some?
  {
    if ps == [] then Some(0.0)
    else Plus(AddedRevenue(ps[..|ps| - 1], target), Additional(ps[|ps| - 1], target))
  }

  /** Lines 430-451. */
  method TotalAdditional(bottom: seq<Product>, target: Option<real>) returns (total: Option<real>)
    ensures total == AddedRevenue(bottom, target)
  {
    total := Some(0.0);
    for i := 0 to |bottom|
      invariant total == AddedRevenue(bottom[..i], target)
    {
      assert bottom[..i + 1][..i] == bottom[..i];
      total := Plus(total, Additional(bottom[i], target));
    }
    assert bottom[..|bottom|] == bottom;
  }

  /** Lines 455-457: the total against the tail's sales, 0 when they do not sum above 0. */
  function UpliftOf(total: Option<real>, sales: real): (r: Option<real>)
    ensures sales <= 0.0 ==> r == Some(0.0)
    ensures sales > 0.0 ==> (r.Some? <==> total.Some?)
    ensures sales > 0.0 && total.Some? ==> r.value * sales == total.value * 100.0
  {
    if sales > 0.0 then (if total.Some? then Some(total.value / sales * 100.0) else None) else Some(0.0)
  }

  function PotentialOf(labels: seq<string>, top: seq<Product>, bottom: seq<Product>): Potential
  {
    if |top| == 0 || |bottom| == 0 then Insufficient
    else if LastWhere(labels, IsSessionsTotalHeader).None? || LastWhere(labels, IsSalesTotalHeader).None? then
      ColumnsNotFound
    else
      var target := Mean(Conversions(top));
      var total := AddedRevenue(bottom, target);
      Estimate(target, total, UpliftOf(total, SumPresent(SalesOf(bottom))))
  }

  /** Lines 421-425: both header searches in one pass, the last match kept. */
  method FindTotalColumns(labels: seq<string>) returns (sessionsAt: Option<nat>, salesAt: Option<nat>)
    ensures sessionsAt == LastWhere(labels, IsSessionsTotalHeader)
    ensures salesAt == LastWhere(labels, IsSalesTotalHeader)
  {
    sessionsAt, salesAt := None, None;
    for i := 0 to |labels|
      invariant sessionsAt == LastWhere(labels[..i], IsSessionsTotalHeader)
      invariant salesAt == LastWhere(labels[..i], IsSalesTotalHeader)
    {
      assert labels[..i + 1][..i] == labels[..i];
      if IsSessionsTotalHeader(labels[i]) {
        sessionsAt := Some(i);
      }
      if IsSalesTotalHeader(labels[i]) {
        salesAt := Some(i);
      }
    }
    assert labels[..|labels|] == labels;
  }

  /** Lines 404-466. */
  method CalculatePotential(labels: seq<string>, top: seq<Product>, bottom: seq<Product>) returns (p: Potential)
    ensures p == PotentialOf(labels, top, bottom)
  {
    if |top| == 0 || |bottom| == 0 {
      return Insufficient;
    }
    var target := Mean(Conversions(top));
    var sessionsAt, salesAt := FindTotalColumns(labels);
    if sessionsAt.None? || salesAt.None? {
      return ColumnsNotFound;
    }
    var total := TotalAdditional(bottom, target);
    p := Estimate(target, total, UpliftOf(total, SumPresent(SalesOf(bottom))));
  }

  /** At a target no lower than its own conversion, a product adds revenue, never subtracts. */
  lemma AdditionalNonNegative(p: Product, target: real)
    requires p.sessions.Some? && p.sessions.value >= 0.0
    requires p.conversion.Some? && p.conversion.value <= target
    requires OrderValue(p).Some? && OrderValue(p).value >= 0.0
    ensures Additional(p, Some(target)).Some? && Additional(p, Some(target)).value >= 0.0
  {
    var s, c, a := p.sessions.value, p.conversion.value, OrderValue(p).value;
    var gain := s * (target / 100.0) - s * (c / 100.0);
    assert gain == s * ((target - c) / 100.0);
    MulNonNegativeBoth(s, (target - c) / 100.0);
    MulNonNegativeBoth(gain, a);
  }

  lemma MulNonNegativeBoth(x: real, y: real)
    requires x >= 0.0 && y >= 0.0
    ensures x * y >= 0.0
  {
  }

  lemma {:induction false} AddedRevenueNonNegative(ps: seq<Product>, target: Option<real>)
    requires forall i :: 0 <= i < |ps| ==> Additional(ps[i], target).Some? && Additional(ps[i], target).value >= 0.0
    ensures AddedRevenue(ps, target).Some? && AddedRevenue(ps, target).value >= 0.0
  {
    if ps != [] {
      AddedRevenueNonNegative(ps[..|ps| - 1], target);
    }
  }

  /** With at least twice 15 ranked products whose conversions are all numbers,
    * every tail product converts at most at the head's average. */
  lemma TailBelowTarget(sorted: seq<Product>)
    requires |sorted| >= 2 * RankSize
    requires forall i :: 0 <= i < |sorted| ==> sorted[i].conversion.Some?
    requires forall i, j :: 0 <= i < j < |sorted| ==> sorted[i].conversion.value >= sorted[j].conversion.value
    ensures Mean(Conversions(Head(sorted, RankSize))).Some?
    ensures forall p :: p in Tail(sorted, RankSize) ==>
      p.conversion.value <= Mean(Conversions(Head(sorted, RankSize))).value
  {
    var top, bottom := Head(sorted, RankSize), Tail(sorted, RankSize);
    var xs := Conversions(top);
    var lo, hi := sorted[RankSize - 1].conversion.value, sorted[0].conversion.value;
    assert xs[0].Some?;
    forall i | 0 <= i < |xs| && xs[i].Some? ensures lo <= xs[i].value <= hi {
      assert top[i] == sorted[i];
    }
    MeanBetween(xs, lo, hi);
    forall p | p in bottom ensures p.conversion.value <= lo {
      var j :| 0 <= j < |bottom| && bottom[j] == p;
      assert p == sorted[|sorted| - RankSize + j];
    }
  }

  /** When head and tail are apart and every tail product has numbers for
    * sessions, conversion and order value (none negative), the estimate finds
    * no negative potential and no negative uplift. */
  lemma PotentialNonNegative(labels: seq<string>, sorted: seq<Product>)
    requires |sorted| >= 2 * RankSize
    requires forall i :: 0 <= i < |sorted| ==> sorted[i].conversion.Some?
    requires forall i, j :: 0 <= i < j < |sorted| ==> sorted[i].conversion.value >= sorted[j].conversion.value
    requires forall p :: p in Tail(sorted, RankSize) ==>
      p.sessions.Some? && p.sessions.value >= 0.0 && OrderValue(p).Some? && OrderValue(p).value >= 0.0
    ensures var e := PotentialOf(labels, Head(sorted, RankSize), Tail(sorted, RankSize));
      e.ColumnsNotFound? || (e.Estimate? && e.additional.Some? && e.additional.value >= 0.0 &&
                             e.uplift.Some? && e.uplift.value >= 0.0)
  {
    var top, bottom := Head(sorted, RankSize), Tail(sorted, RankSize);
    TailBelowTarget(sorted);
    var target := Mean(Conversions(top));
    forall i | 0 <= i < |bottom|
      ensures Additional(bottom[i], target).Some? && Additional(bottom[i], target).value >= 0.0
    {
      assert bottom[i] in bottom;
      AdditionalNonNegative(bottom[i], target.value);
    }
    AddedRevenueNonNegative(bottom, target);
    var total := AddedRevenue(bottom, target);
    var sales := SumPresent(SalesOf(bottom));
    UpliftNonNegative(total, sales);
  }

  /** A non-negative added revenue gives a non-negative uplift. */
  lemma UpliftNonNegative(total: Option<real>, sales: real)
    requires total.Some? && total.value >= 0.0
    ensures UpliftOf(total, sales).Some? && UpliftOf(total, sales).value >= 0.0
  {
    if sales > 0.0 {
      DivideAtLeast(total.value, sales, 0.0);
    }
  }

  /** Two products are both head and tail: the stronger one pulls the estimate below 0. */
  lemma OverlapSubtracts(labels: seq<string>, strong: Product, weak: Product)
    requires LastWhere(labels, IsSessionsTotalHeader).Some? && LastWhere(labels, IsSalesTotalHeader).Some?
    requires strong == Product(Some(1000.0), Some(50.0), Some(1.0), Some(10.0), Some(1000.0), Some(10.0))
    requires weak == Product(Some(100.0), Some(10.0), Some(1.0), Some(10.0), Some(100.0), Some(10.0))
    ensures var s := [strong, weak];
      PotentialOf(labels, Head(s, RankSize), Tail(s, RankSize)).additional == Some(-1800.0)
  {
    var s := [strong, weak];
    assert Head(s, RankSize) == s && Tail(s, RankSize) == s;
    assert Conversions(s) == [Some(50.0), Some(10.0)];
    MeanPair(50.0, 10.0);
    AddedRevenuePair(strong, weak, Some(30.0));
    assert Additional(strong, Some(30.0)) == Some(-2000.0);
    assert Additional(weak, Some(30.0)) == Some(200.0);
  }

  lemma MeanPair(a: real, b: real)
    ensures Mean([Some(a), Some(b)]) == Some((a + b) / 2.0)
  {
    var xs := [Some(a), Some(b)];
    assert xs[..1] == [Some(a)] && xs[..1][..0] == [];
    assert Present(xs) == [a, b];
    var ys := [a, b];
    assert ys[..1] == [a] && [a][..0] == [];
    assert Sum([a]) == Sum([]) + a;
    assert Sum(ys) == Sum([a]) + b;
  }

  lemma AddedRevenuePair(x: Product, y: Product, target: Option<real>)
    ensures AddedRevenue([x, y], target) == Plus(Plus(Some(0.0), Additional(x, target)), Additional(y, target))
  {
    var s := [x, y];
    assert s[..1] == [x] && [x][..0] == [];
    assert AddedRevenue(s, target) == Plus(AddedRevenue([x], target), Additional(y, target));
    assert AddedRevenue([x], target) == Plus(AddedRevenue([], target), Additional(x, target));
  }

  // ---------------------------------------------------------------- main (lines 518-549)

  /** How a run ends. */
  datatype Outcome =
    | UnpackError         // line 534 unpacks the single frame of line 99 into two names
    | ConversionMissing   // KeyError at line 109: clean_data returned before adding conversion_rate
    | NotEnough           // lines 537-539
    | UnitsMissing        // KeyError at line 146: display_results reads 'Units ordered' of each head row
    | Analysed(top: seq<Product>, bottom: seq<Product>, potential: Potential)

  /** Lines 534-546 once head and ranking exist. */
  function Conclude(labels: seq<string>, sorted: seq<Product>): Outcome
  {
    var top, bottom := Head(sorted, RankSize), Tail(sorted, RankSize);
    if |top| == 0 || |bottom| == 0 then NotEnough
    else if UnitsColumn !in labels then UnitsMissing
    else Analysed(top, bottom, PotentialOf(labels, top, bottom))
  }

  /** The ranking of lines 103-110 on the cleaned table. */
  function Ranked(labels: seq<string>, t: map<string, seq<Cell>>, n: nat): seq<Product>
    requires Rectangular(t, n) && Labelled(labels, t) && SessionsColumn in t
  {
    HighTrafficSorted(Products(labels, t, n), TrafficThreshold(t))
  }

  /** main as written: a missing sessions column ends in the unpacking error. */
  function AnalysisAsWritten(labels: seq<string>, t: map<string, seq<Cell>>, n: nat): Outcome
    requires Rectangular(t, n) && Labelled(labels, t)
  {
    if SessionsColumn !in t then UnpackError
    else if ConversionColumn !in t then ConversionMissing
    else Conclude(labels, Ranked(labels, t, n))
  }

  /** main with line 99 returning an empty head and an empty ranking. */
  function Analysis(labels: seq<string>, t: map<string, seq<Cell>>, n: nat): Outcome
    requires Rectangular(t, n) && Labelled(labels, t)
  {
    if SessionsColumn !in t then NotEnough
    else if ConversionColumn !in t then ConversionMissing
    else Conclude(labels, Ranked(labels, t, n))
  }

  /** A report without the sessions column crashes as written and stops with the
    * "not enough products" message once line 99 returns two empty frames; with
    * the column, both agree. */
  lemma MissingSessionsOutcome(labels: seq<string>, t: map<string, seq<Cell>>, n: nat)
    requires Rectangular(t, n) && Labelled(labels, t)
    ensures SessionsColumn !in t ==> AnalysisAsWritten(labels, t, n) == UnpackError
    ensures SessionsColumn !in t ==> Analysis(labels, t, n) == NotEnough
    ensures SessionsColumn in t ==> Analysis(labels, t, n) == AnalysisAsWritten(labels, t, n)
  {
  }

  /** With sessions and conversion columns, the run stops for want of products
    * exactly when no row has a number of sessions. */
  lemma NotEnoughIff(labels: seq<string>, t: map<string, seq<Cell>>, n: nat)
    requires Rectangular(t, n) && Labelled(labels, t) && SessionsColumn in t && ConversionColumn in t
    ensures Analysis(labels, t, n) == NotEnough <==> forall i :: 0 <= i < n ==> !t[SessionsColumn][i].Num?
  {
    RankedEmpty(labels, t, n);
  }

  /** With sessions and conversion columns, the results table fails on the
    * missing units column exactly when some row has a number of sessions and the
    * report has no 'Units ordered' column. */
  lemma UnitsMissingIff(labels: seq<string>, t: map<string, seq<Cell>>, n: nat)
    requires Rectangular(t, n) && Labelled(labels, t) && SessionsColumn in t && ConversionColumn in t
    ensures Analysis(labels, t, n) == UnitsMissing <==>
      (exists i :: 0 <= i < n && t[SessionsColumn][i].Num?) && UnitsColumn !in labels
  {
    NotEnoughIff(labels, t, n);
  }

  /** Nothing is ranked exactly when no row has a number of sessions. */
  lemma RankedEmpty(labels: seq<string>, t: map<string, seq<Cell>>, n: nat)
    requires Rectangular(t, n) && Labelled(labels, t) && SessionsColumn in t
    ensures Ranked(labels, t, n) == [] <==> forall i :: 0 <= i < n ==> !t[SessionsColumn][i].Num?
  {
    var products := Products(labels, t, n);
    var col := t[SessionsColumn];
    forall k | 0 <= k < n ensures products[k].traffic == Numbers(col)[k] {
    }
    SortedEmpty(products, col);
  }

  /** The ranking of products whose traffic is a column's numbers is empty
    * exactly when the column holds no number. */
  lemma SortedEmpty(products: seq<Product>, col: seq<Cell>)
    requires |products| == |col|
    requires forall k :: 0 <= k < |col| ==> products[k].traffic == Numbers(col)[k]
    ensures HighTrafficSorted(products, Quantile(Present(Numbers(col)), 0.7)) == []
            <==> forall i :: 0 <= i < |col| ==> !col[i].Num?
  {
    var threshold := Quantile(Present(Numbers(col)), 0.7);
    RankingCorrect(products, threshold);
    var sorted := HighTrafficSorted(products, threshold);
    if exists i :: 0 <= i < |col| && col[i].Num? {
      var i :| 0 <= i < |col| && col[i].Num?;
      var k := ThresholdReached(col, i);
      assert HighTraffic(products[k], threshold);
      assert products[k] in products;
    }
  }

  /** A column with one number has a row at or above its 70th percentile. */
  lemma ThresholdReached(col: seq<Cell>, i: nat) returns (k: nat)
    requires i < |col| && col[i].Num?
    ensures Quantile(Present(Numbers(col)), 0.7).Some?
    ensures k < |col| && Numbers(col)[k].Some?
    ensures Numbers(col)[k].value >= Quantile(Present(Numbers(col)), 0.7).value
  {
    var values := Present(Numbers(col));
    assert Some(col[i].value) == Numbers(col)[i];
    assert col[i].value in values;
    QuantileReached(values, 0.7);
    var j :| 0 <= j < |values| && values[j] >= Quantile(values, 0.7).value;
    assert values[j] in values;
    k :| 0 <= k < |col| && Numbers(col)[k] == Some(values[j]);
  }

  /** Lines 518-549 on a loaded report: clean, rank, estimate. This is main
    * with line 99 corrected: without the sessions column it ends in NotEnough,
    * where main as written raises on unpacking (AnalysisAsWritten,
    * MissingSessionsOutcome). */
  method AnalyzeTraffic(df: Frame) returns (outcome: Outcome)
    requires df.Valid()
    modifies df
    ensures df.Valid() && df.height == old(df.height)
    ensures Rectangular(TableOf(Stripped(old(df.labels)), old(df.columns)), old(df.height))
    ensures Labelled(Stripped(old(df.labels)), TableOf(Stripped(old(df.labels)), old(df.columns)))
    ensures df.Table() == Cleaned(Stripped(old(df.labels)), TableOf(Stripped(old(df.labels)), old(df.columns)), old(df.height))
    ensures Rectangular(df.Table(), df.height) && Labelled(df.labels, df.Table())
    ensures outcome == Analysis(df.labels, df.Table(), df.height)
  {
    CleanData(df);
    df.TableFits();
    var t := df.Table();
    if SessionsColumn !in t {
      return NotEnough;
    }
    if ConversionColumn !in t {
      return ConversionMissing;
    }
    var sorted := Ranked(df.labels, t, df.height);
    var top, bottom := Head(sorted, RankSize), Tail(sorted, RankSize);
    if |top| == 0 || |bottom| == 0 {
      return NotEnough;
    }
    if UnitsColumn !in df.labels {
      return UnitsMissing;
    }
    var potential := CalculatePotential(df.labels, top, bottom);
    outcome := Analysed(top, bottom, potential);
  }
}
