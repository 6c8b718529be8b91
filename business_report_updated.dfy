/** analyze_business_report_updated.py: headers are normalised mechanically
  * instead of through a fixed mapping, every percentage column is cleaned, the
  * metrics are added only when their inputs exist, and the summary totals
  * default to 0. */
module BusinessReportUpdated {
  import opened Common
  import opened Text
  import opened Cells
  import opened Frames
  import BusinessReport
  import NewReport

  // ---------------------------------------------------------------- headers

  /** Line 21: '–' becomes '-', ' ' becomes '_', then lower case. */
  function NormaliseHeader(l: string): (r: string)
    ensures |r| == |l|
  {
    Lower(ReplaceChar(ReplaceChar(l, '–', '-'), ' ', '_'))
  }

  /** A normalised header has no en-dash, no space and no capital, and
    * normalising it again changes nothing. */
  lemma NormaliseHeaderMeans(l: string)
    ensures forall i :: 0 <= i < |l| ==>
      NormaliseHeader(l)[i] != '–' && NormaliseHeader(l)[i] != ' ' && !('A' <= NormaliseHeader(l)[i] <= 'Z')
    ensures forall i :: 0 <= i < |l| && l[i] != '–' && l[i] != ' ' ==> NormaliseHeader(l)[i] == LowerChar(l[i])
    ensures NormaliseHeader(NormaliseHeader(l)) == NormaliseHeader(l)
  {
    var r := NormaliseHeader(l);
    var rr := NormaliseHeader(r);
    forall i | 0 <= i < |l| ensures rr[i] == r[i] {
    }
  }

  /** 'Sessions – Total' becomes 'sessions_-_total' (the sessions test of line 37). */
  lemma SessionsHeader(header: string)
    requires header == "Sessions – Total"
    ensures NormaliseHeader(header) == "sessions_-_total"
  {
    var expected := "sessions_-_total";
    forall i | 0 <= i < |header| ensures NormaliseHeader(header)[i] == expected[i] {
    }
  }

  /** The header row after line 21. */
  function Normalised(labels: seq<string>): (r: seq<string>)
    ensures |r| == |labels| && forall k :: 0 <= k < |labels| ==> r[k] == NormaliseHeader(labels[k])
  {
    seq(|labels|, k requires 0 <= k < |labels| => NormaliseHeader(labels[k]))
  }

  method NormaliseHeaders(df: Frame)
    requires df.Valid()
    modifies df
    ensures df.Valid() && df.height == old(df.height) && df.columns == old(df.columns)
    ensures df.labels == Normalised(old(df.labels))
  {
    df.Relabel(NormaliseHeader);
  }

  // ---------------------------------------------------------------- percentage columns

  predicate IsPercentageHeader(l: string)
  {
    Contains(l, "percentage")
  }

  /** Lines 26-27 on one column: '%' deleted, then the text read as a number. */
  function CleanPercentages(c: seq<Cell>): (r: seq<Cell>)
    ensures |r| == |c|
  {
    MapCells(BusinessReport.PercentageCell, c)
  }

  /** Cleaning a percentage column a second time leaves it as it is. */
  lemma PercentageCleanTwice(c: seq<Cell>)
    ensures CleanPercentages(CleanPercentages(c)) == CleanPercentages(c)
  {
    forall i | 0 <= i < |c| {
      CleanTextIdempotent(c[i], {'%'});
    }
  }

  /** The table after the percentage pass: each column whose header contains 'percentage' cleaned. */
  function PercentagesCleaned(t: map<string, seq<Cell>>): map<string, seq<Cell>>
  {
    Transformed(t, IsPercentageHeader, CleanPercentages)
  }

  /** Lines 24-27: the list of line 24 followed by the loop of line 25 visits the
    * percentage headers in frame order. A header that occurs twice is cleaned
    * twice, which, cleaning being idempotent, is the same as once. */
  method CleanPercentageColumns(df: Frame)
    requires df.Valid()
    modifies df
    ensures df.Valid() && df.labels == old(df.labels) && df.height == old(df.height)
    ensures df.Table() == PercentagesCleaned(old(df.Table()))
  {
    forall c {
      PercentageCleanTwice(c);
    }
    TransformWhere(df, IsPercentageHeader, CleanPercentages);
  }

  // ---------------------------------------------------------------- currency and metrics

  const SalesColumn := "ordered_product_sales"
  const SalesColumns: seq<string> := ["ordered_product_sales", "ordered_product_sales_-_b2b"]
  const SessionsColumn := "sessions_-_total"
  const UnitsColumn := "units_ordered"

  /** Lines 30-34: '£' and ',' deleted in the two sales columns that are present. */
  method CleanCurrencyColumns(df: Frame)
    requires df.Valid()
    modifies df
    ensures df.Valid() && df.labels == old(df.labels) && df.height == old(df.height)
    ensures df.columns == Applied(old(df.labels), old(df.columns), SalesColumns, BusinessReport.CurrencyCell)
    ensures df.Table() == AppliedTable(old(df.Table()), SalesColumns, BusinessReport.CurrencyCell)
  {
    df.ApplyToColumns(SalesColumns, BusinessReport.CurrencyCell);
  }

  /** Lines 37-39: conversion added when sessions and units exist. */
  function WithConversion(t: map<string, seq<Cell>>, n: nat): (r: map<string, seq<Cell>>)
    requires Rectangular(t, n)
    ensures Rectangular(r, n)
  {
    if SessionsColumn in t && UnitsColumn in t then
      t["conversion_rate" := ZipCells(BusinessReport.ConversionCell, t[UnitsColumn], t[SessionsColumn])]
    else t
  }

  /** Lines 41-43: average order value added when units and sales exist. */
  function WithOrderValue(t: map<string, seq<Cell>>, n: nat): (r: map<string, seq<Cell>>)
    requires Rectangular(t, n)
    ensures Rectangular(r, n)
  {
    if UnitsColumn in t && SalesColumn in t then
      t["avg_order_value" := ZipCells(BusinessReport.PerUnitCell, t[SalesColumn], t[UnitsColumn])]
    else t
  }

  /** The table after lines 37-43: each metric added only when both of its inputs exist. */
  function WithMetrics(t: map<string, seq<Cell>>, n: nat): map<string, seq<Cell>>
    requires Rectangular(t, n)
  {
    WithOrderValue(WithConversion(t, n), n)
  }

  /** A metric column appears exactly when its inputs do; every other column is kept. */
  lemma WithMetricsMeans(t: map<string, seq<Cell>>, n: nat)
    requires Rectangular(t, n)
    ensures SessionsColumn in t && UnitsColumn in t ==>
      (WithMetrics(t, n)["conversion_rate"] == ZipCells(BusinessReport.ConversionCell, t[UnitsColumn], t[SessionsColumn]))
    ensures !(SessionsColumn in t && UnitsColumn in t) ==>
      ("conversion_rate" in WithMetrics(t, n) <==> "conversion_rate" in t)
    ensures UnitsColumn in t && SalesColumn in t ==>
      (WithMetrics(t, n)["avg_order_value"] == ZipCells(BusinessReport.PerUnitCell, t[SalesColumn], t[UnitsColumn]))
    ensures !(UnitsColumn in t && SalesColumn in t) ==>
      ("avg_order_value" in WithMetrics(t, n) <==> "avg_order_value" in t)
    ensures forall l :: l in t && l != "conversion_rate" && l != "avg_order_value" ==>
      l in WithMetrics(t, n) && WithMetrics(t, n)[l] == t[l]
  {
  }

  /** The metric columns never create or remove the 'sku' column. */
  lemma MetricsKeepSku(t: map<string, seq<Cell>>, n: nat)
    requires Rectangular(t, n)
    ensures "sku" in WithMetrics(t, n) <==> "sku" in t
  {
    assert |"sku"| == 3 && |"conversion_rate"| == 15 && |"avg_order_value"| == 15;
  }

  /** Lines 37-39 raise a TypeError: the comparison and the division meet a
    * sessions or units column holding text, neither column having been converted. */
  predicate ConversionRaises(t: map<string, seq<Cell>>)
  {
    SessionsColumn in t && UnitsColumn in t && (HoldsText(t[SessionsColumn]) || HoldsText(t[UnitsColumn]))
  }

  /** Lines 41-43 raise a TypeError on a units or sales column holding text. */
  predicate OrderValueRaises(t: map<string, seq<Cell>>)
  {
    UnitsColumn in t && SalesColumn in t && (HoldsText(t[UnitsColumn]) || HoldsText(t[SalesColumn]))
  }

  /** Lines 36-43 stop the script with an uncaught TypeError. */
  predicate MetricsRaise(t: map<string, seq<Cell>>)
  {
    ConversionRaises(t) || OrderValueRaises(t)
  }

  /** Adding the conversion column does not touch the inputs of the order value. */
  lemma ConversionKeepsOrderInputs(t: map<string, seq<Cell>>, n: nat)
    requires Rectangular(t, n)
    ensures OrderValueRaises(WithConversion(t, n)) <==> OrderValueRaises(t)
    ensures (UnitsColumn in WithConversion(t, n) && SalesColumn in WithConversion(t, n)) <==> (UnitsColumn in t && SalesColumn in t)
  {
    assert |"conversion_rate"| == 15 && |UnitsColumn| == 13 && |SalesColumn| == 21;
  }

  /** Lines 37-39 on the frame; `raised` is the TypeError, the frame then unchanged. */
  method AddConversion(df: Frame) returns (raised: bool)
    requires df.Valid()
    modifies df
    ensures df.Valid() && df.height == old(df.height)
    ensures Rectangular(old(df.Table()), old(df.height))
    ensures raised <==> ConversionRaises(old(df.Table()))
    ensures df.Table() == if raised then old(df.Table()) else WithConversion(old(df.Table()), old(df.height))
  {
    df.TableFits();
    raised := false;
    if df.Has(SessionsColumn) && df.Has(UnitsColumn) {
      if HoldsText(df.Column(SessionsColumn)) || HoldsText(df.Column(UnitsColumn)) {
        return true;
      }
      df.Assign("conversion_rate", ZipCells(BusinessReport.ConversionCell, df.Column(UnitsColumn), df.Column(SessionsColumn)));
    }
  }

  /** Lines 41-43 on the frame; `raised` is the TypeError, the frame then unchanged. */
  method AddOrderValue(df: Frame) returns (raised: bool)
    requires df.Valid()
    modifies df
    ensures df.Valid() && df.height == old(df.height)
    ensures Rectangular(old(df.Table()), old(df.height))
    ensures raised <==> OrderValueRaises(old(df.Table()))
    ensures df.Table() == if raised then old(df.Table()) else WithOrderValue(old(df.Table()), old(df.height))
  {
    df.TableFits();
    raised := false;
    if df.Has(UnitsColumn) && df.Has(SalesColumn) {
      if HoldsText(df.Column(UnitsColumn)) || HoldsText(df.Column(SalesColumn)) {
        return true;
      }
      df.Assign("avg_order_value", ZipCells(BusinessReport.PerUnitCell, df.Column(SalesColumn), df.Column(UnitsColumn)));
    }
  }

  /** Lines 36-43; `raised` is the TypeError that ends the script. */
  method CalculateMetrics(df: Frame) returns (raised: bool)
    requires df.Valid()
    modifies df
    ensures df.Valid() && df.height == old(df.height)
    ensures Rectangular(old(df.Table()), old(df.height))
    ensures raised <==> MetricsRaise(old(df.Table()))
    ensures !raised ==> df.Table() == WithMetrics(old(df.Table()), old(df.height))
    ensures raised ==> df.Table() == if ConversionRaises(old(df.Table())) then old(df.Table())
                                     else WithConversion(old(df.Table()), old(df.height))
  {
    df.TableFits();
    ghost var t0 := df.Table();
    raised := AddConversion(df);
    if raised {
      return;
    }
    ConversionKeepsOrderInputs(t0, df.height);
    raised := AddOrderValue(df);
  }

  // ---------------------------------------------------------------- summary

  datatype Summary = Summary(totalSales: real, totalUnits: real, averageConversion: Option<real>)

  /** Lines 49-51: column sums and mean, 0 for an absent column; a mean of no value is NaN (None). */
  function SummaryOf(t: map<string, seq<Cell>>): (s: Summary)
    ensures SalesColumn !in t ==> s.totalSales == 0.0
    ensures UnitsColumn !in t ==> s.totalUnits == 0.0
    ensures "conversion_rate" !in t ==> s.averageConversion == Some(0.0)
  {
    Summary(
      if SalesColumn in t then SumPresent(Numbers(t[SalesColumn])) else 0.0,
      if UnitsColumn in t then SumPresent(Numbers(t[UnitsColumn])) else 0.0,
      if "conversion_rate" in t then Mean(Numbers(t["conversion_rate"])) else Some(0.0))
  }

  /** Guarded conversion rates with units never above sessions average between 0 and 100. */
  lemma AverageConversionBounded(units: seq<Cell>, sessions: seq<Cell>)
    requires |units| == |sessions|
    requires forall i :: 0 <= i < |units| ==> units[i].Num? && 0.0 <= units[i].value
    requires forall i :: 0 <= i < |units| && sessions[i].Num? && sessions[i].value > 0.0 ==> units[i].value <= sessions[i].value
    ensures var avg := Mean(Numbers(ZipCells(BusinessReport.ConversionCell, units, sessions)));
      avg.Some? <==> units != []
    ensures var avg := Mean(Numbers(ZipCells(BusinessReport.ConversionCell, units, sessions)));
      avg.Some? ==> 0.0 <= avg.value <= 100.0
  {
    var conversion := ZipCells(BusinessReport.ConversionCell, units, sessions);
    var xs := Numbers(conversion);
    forall i | 0 <= i < |xs| ensures xs[i].Some? && 0.0 <= xs[i].value <= 100.0 {
      BusinessReport.DerivedMetricGuards(units[i], sessions[i], Missing);
    }
    MeanBetween(xs, 0.0, 100.0);
    if units != [] {
      assert xs[0].Some?;
    }
  }

  // ---------------------------------------------------------------- main

  /** Line 58: the prefix of line 12 plus '_cleaned.csv', the rule of the second script. */
  function OutputFile(input: string): string
  {
    NewReport.OutputPrefix(input) + "_cleaned.csv"
  }

  lemma MainOutputFile(input: string, base: string)
    requires base == "BusinessReport-23-07-2025" && input == base + (" (" + ("1" + ").csv"))
    ensures OutputFile(input) == base + "_1" + "_cleaned.csv"
  {
    NewReport.MainPrefix(input, base);
  }

  /** The table main has after lines 20-34, from the loaded labels and columns. */
  ghost function CleanedFrom(labels: seq<string>, columns: seq<seq<Cell>>): map<string, seq<Cell>>
    requires |labels| == |columns|
  {
    AppliedTable(PercentagesCleaned(TableOf(Normalised(labels), columns)), SalesColumns, BusinessReport.CurrencyCell)
  }

  /** After the currency pass the sales column holds no text, so only a sessions
    * or units column holding text can make the metrics raise. */
  lemma CleanedSalesHoldNoText(t: map<string, seq<Cell>>)
    ensures var r := AppliedTable(t, SalesColumns, BusinessReport.CurrencyCell);
      SalesColumn in r ==> !HoldsText(r[SalesColumn])
    ensures var r := AppliedTable(t, SalesColumns, BusinessReport.CurrencyCell);
      MetricsRaise(r) <==>
        UnitsColumn in r && ((SessionsColumn in r && (HoldsText(r[SessionsColumn]) || HoldsText(r[UnitsColumn])))
                             || (SalesColumn in r && HoldsText(r[UnitsColumn])))
  {
    var r := AppliedTable(t, SalesColumns, BusinessReport.CurrencyCell);
    if SalesColumn in r {
      assert SalesColumn in SalesColumns;
      assert r[SalesColumn] == MapCells(BusinessReport.CurrencyCell, t[SalesColumn]);
    }
  }

  /** The cleaning steps of main (lines 20-34). */
  method CleanReport(df: Frame)
    requires df.Valid()
    modifies df
    ensures df.Valid() && df.height == old(df.height) && df.labels == Normalised(old(df.labels))
    ensures df.Table() == CleanedFrom(old(df.labels), old(df.columns))
  {
    NormaliseHeaders(df);
    df.TableIsTableOf();
    CleanPercentageColumns(df);
    CleanCurrencyColumns(df);
  }

  /** Lines 49-51 on the frame. */
  method Summarise(df: Frame) returns (summary: Summary)
    requires df.Valid()
    ensures summary == SummaryOf(df.Table())
  {
    var sales := if df.Has(SalesColumn) then SumPresent(Numbers(df.Column(SalesColumn))) else 0.0;
    var units := if df.Has(UnitsColumn) then SumPresent(Numbers(df.Column(UnitsColumn))) else 0.0;
    var conversion := if df.Has("conversion_rate") then Mean(Numbers(df.Column("conversion_rate"))) else Some(0.0);
    summary := Summary(sales, units, conversion);
  }

  /** How main ends: the TypeError of lines 36-43, the KeyError of line 46 when
    * no 'sku' column exists, or the summary it prints. */
  datatype Outcome = TypeMismatch | MissingSku | Summarised(summary: Summary)

  /** The table main saves: the metrics, then the Prime flag of line 46. */
  function Finished(t: map<string, seq<Cell>>, n: nat): (r: map<string, seq<Cell>>)
    requires Rectangular(t, n) && !MetricsRaise(t) && "sku" in t
    ensures Rectangular(r, n)
  {
    WithMetrics(t, n)["is_prime" := MapCells(BusinessReport.PrimeCell, t["sku"])]
  }

  /** Lines 36-51 on the cleaned frame. */
  method MetricsAndSummary(df: Frame) returns (outcome: Outcome)
    requires df.Valid()
    modifies df
    ensures df.Valid() && df.height == old(df.height)
    ensures Rectangular(old(df.Table()), old(df.height))
    ensures outcome.TypeMismatch? <==> MetricsRaise(old(df.Table()))
    ensures outcome.MissingSku? <==> !MetricsRaise(old(df.Table())) && "sku" !in old(df.Table())
    ensures outcome.Summarised? ==> df.Table() == Finished(old(df.Table()), old(df.height))
    ensures outcome.Summarised? ==> outcome.summary == SummaryOf(df.Table())
  {
    df.TableFits();
    ghost var t0 := df.Table();
    var raised := CalculateMetrics(df);
    if raised {
      return TypeMismatch;
    }
    MetricsKeepSku(t0, df.height);
    if !df.Has("sku") {
      return MissingSku;
    }
    var sku := df.Column("sku");
    WithMetricsMeans(t0, df.height);
    df.Assign("is_prime", MapCells(BusinessReport.PrimeCell, sku));
    var s := Summarise(df);
    outcome := Summarised(s);
  }

  /** main (lines 10-60) on the loaded frame. */
  method AnalyzeUpdatedReport(df: Frame) returns (outcome: Outcome)
    requires df.Valid()
    modifies df
    ensures df.Valid() && df.height == old(df.height)
    ensures Rectangular(CleanedFrom(old(df.labels), old(df.columns)), old(df.height))
    ensures outcome.TypeMismatch? <==> MetricsRaise(CleanedFrom(old(df.labels), old(df.columns)))
    ensures outcome.MissingSku? <==>
      !MetricsRaise(CleanedFrom(old(df.labels), old(df.columns))) && "sku" !in CleanedFrom(old(df.labels), old(df.columns))
    ensures outcome.Summarised? ==> df.Table() == Finished(CleanedFrom(old(df.labels), old(df.columns)), old(df.height))
    ensures outcome.Summarised? ==> outcome.summary == SummaryOf(df.Table())
  {
    CleanReport(df);
    outcome := MetricsAndSummary(df);
  }
}
