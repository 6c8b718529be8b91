/** traffic_conversion_analysis_report3.py: the same ranking as the first
  * traffic script on a report whose counts carry thousands separators; rows
  * missing sessions, units or conversion are dropped, and the weakest products
  * are measured against the median conversion of the strongest. */
module TrafficReport3 {
  import opened Common
  import opened Cells
  import opened Frames
  import BusinessReport
  import TrafficConversion

  const SessionsColumn := "Sessions – Total"
  const UnitsColumn := "Units ordered"
  const SalesColumn := "Ordered Product Sales"
  const ConversionColumn := "conversion_rate"
  const AovColumn := "aov"

  /** top_n and bottom_n. */
  const RankSize: nat := 15

  // ---------------------------------------------------------------- clean_data (lines 33-87)

  /** Line 43: thousands separators deleted before the number is read. */
  function SessionsCell(c: Cell): Cell
  {
    CleanText(c, {','})
  }

  /** Line 54: '£' and separators deleted. */
  function SalesCell(c: Cell): Cell
  {
    CleanText(c, {'£', ','})
  }

  /** The table with the column at `l`, if present, converted cell by cell. */
  function Converted(t: map<string, seq<Cell>>, l: string, f: Cell -> Cell): (r: map<string, seq<Cell>>)
    ensures r.Keys == t.Keys
    ensures l in t ==> r[l] == MapCells(f, t[l])
    ensures forall m :: m in t && m != l ==> r[m] == t[m]
  {
    if l in t then t[l := MapCells(f, t[l])] else t
  }

  /** Lines 41-56: sessions, units and sales read as numbers. */
  function NumbersRead(t: map<string, seq<Cell>>): (r: map<string, seq<Cell>>)
    ensures r.Keys == t.Keys && forall l :: l in t ==> |r[l]| == |t[l]|
  {
    Converted(Converted(Converted(t, SessionsColumn, SessionsCell), UnitsColumn, Coerce), SalesColumn, SalesCell)
  }

  /** Lines 59-65: conversion in percent (0 without sessions) when sessions and units exist. */
  function WithConversion(t: map<string, seq<Cell>>, n: nat): (r: map<string, seq<Cell>>)
    requires Rectangular(t, n)
    ensures Rectangular(r, n)
  {
    if SessionsColumn in t && UnitsColumn in t then
      t[ConversionColumn := ZipCells(BusinessReport.ConversionCell, t[UnitsColumn], t[SessionsColumn])]
    else t
  }

  /** Lines 68-74: order value per unit (0 without units) when sales and units exist. */
  function WithOrderValue(t: map<string, seq<Cell>>, n: nat): (r: map<string, seq<Cell>>)
    requires Rectangular(t, n)
    ensures Rectangular(r, n)
  {
    if SalesColumn in t && UnitsColumn in t then
      t[AovColumn := ZipCells(BusinessReport.PerUnitCell, t[SalesColumn], t[UnitsColumn])]
    else t
  }

  /** Conversion exists after lines 59-74 exactly when it existed or both of its
    * inputs do; the order value is added from the sales; the inputs stay. */
  lemma MetricsMeans(t: map<string, seq<Cell>>, n: nat)
    requires Rectangular(t, n)
    ensures var r := WithOrderValue(WithConversion(t, n), n);
      ConversionColumn in r <==> ConversionColumn in t || (SessionsColumn in t && UnitsColumn in t)
    ensures var r := WithOrderValue(WithConversion(t, n), n);
      SessionsColumn in t && UnitsColumn in t ==>
        r[ConversionColumn] == ZipCells(BusinessReport.ConversionCell, t[UnitsColumn], t[SessionsColumn])
    ensures var r := WithOrderValue(WithConversion(t, n), n);
      SalesColumn in t && UnitsColumn in t ==>
        r[AovColumn] == ZipCells(BusinessReport.PerUnitCell, t[SalesColumn], t[UnitsColumn])
    ensures var r := WithOrderValue(WithConversion(t, n), n);
      forall l :: l in t && l != ConversionColumn && l != AovColumn ==> l in r && r[l] == t[l]
  {
    assert |ConversionColumn| == 15 && |AovColumn| == 3 && |UnitsColumn| == 13 && |SalesColumn| == 21;
  }

  /** Line 79: the rows to keep, those with sessions, units and conversion all numbers. */
  function CompleteMask(t: map<string, seq<Cell>>, n: nat): (m: seq<bool>)
    requires Rectangular(t, n) && SessionsColumn in t && UnitsColumn in t && ConversionColumn in t
    ensures |m| == n
    ensures forall i :: 0 <= i < n ==>
      (m[i] <==> t[SessionsColumn][i].Num? && t[UnitsColumn][i].Num? && t[ConversionColumn][i].Num?)
  {
    seq(n, i requires 0 <= i < n => t[SessionsColumn][i].Num? && t[UnitsColumn][i].Num? && t[ConversionColumn][i].Num?)
  }

  /** Sessions, units and conversion exist and are numbers in every row. */
  predicate Complete(t: map<string, seq<Cell>>, n: nat)
  {
    Rectangular(t, n) && SessionsColumn in t && UnitsColumn in t && ConversionColumn in t &&
    forall i :: 0 <= i < n ==> t[SessionsColumn][i].Num? && t[UnitsColumn][i].Num? && t[ConversionColumn][i].Num?
  }

  /** Lines 41-56 on the frame. */
  method ReadNumbers(df: Frame)
    requires df.Valid()
    modifies df
    ensures df.Valid() && df.height == old(df.height)
    ensures df.Table() == NumbersRead(old(df.Table()))
  {
    if df.Has(SessionsColumn) {
      df.Assign(SessionsColumn, MapCells(SessionsCell, df.Column(SessionsColumn)));
    }
    if df.Has(UnitsColumn) {
      df.Assign(UnitsColumn, MapCells(Coerce, df.Column(UnitsColumn)));
    }
    if df.Has(SalesColumn) {
      df.Assign(SalesColumn, MapCells(SalesCell, df.Column(SalesColumn)));
    }
  }

  /** Lines 59-65 on the frame. */
  method AddConversion(df: Frame)
    requires df.Valid()
    modifies df
    ensures df.Valid() && df.height == old(df.height)
    ensures Rectangular(old(df.Table()), old(df.height))
    ensures df.Table() == WithConversion(old(df.Table()), old(df.height))
  {
    df.TableFits();
    if df.Has(SessionsColumn) && df.Has(UnitsColumn) {
      df.Assign(ConversionColumn, ZipCells(BusinessReport.ConversionCell, df.Column(UnitsColumn), df.Column(SessionsColumn)));
    }
  }

  /** Lines 68-74 on the frame. */
  method AddOrderValue(df: Frame)
    requires df.Valid()
    modifies df
    ensures df.Valid() && df.height == old(df.height)
    ensures Rectangular(old(df.Table()), old(df.height))
    ensures df.Table() == WithOrderValue(old(df.Table()), old(df.height))
  {
    df.TableFits();
    if df.Has(SalesColumn) && df.Has(UnitsColumn) {
      df.Assign(AovColumn, ZipCells(BusinessReport.PerUnitCell, df.Column(SalesColumn), df.Column(UnitsColumn)));
    }
  }

  /** Line 79 on the table: every remaining row is complete, and a table of
    * complete rows is kept whole. */
  lemma KeptComplete(t: map<string, seq<Cell>>, n: nat)
    requires Rectangular(t, n) && SessionsColumn in t && UnitsColumn in t && ConversionColumn in t
    ensures var mask := CompleteMask(t, n);
      Complete(KeptTable(t, mask), CountTrue(mask))
    ensures Complete(t, n) ==> KeptTable(t, CompleteMask(t, n)) == t
  {
    var mask := CompleteMask(t, n);
    KeepWhere(t[SessionsColumn], mask, (c: Cell) => c.Num?);
    KeepWhere(t[UnitsColumn], mask, (c: Cell) => c.Num?);
    KeepWhere(t[ConversionColumn], mask, (c: Cell) => c.Num?);
    if Complete(t, n) {
      forall l | l in t ensures Keep(t[l], mask) == t[l] {
        KeepEverything(t[l], mask);
      }
    }
  }

  /** Line 79: dropna over the three columns; false for the KeyError a missing one raises. */
  method DropIncomplete(df: Frame) returns (ok: bool)
    requires df.Valid()
    modifies df
    ensures df.Valid() && df.labels == old(df.labels)
    ensures Rectangular(old(df.Table()), old(df.height))
    ensures ok <==> SessionsColumn in old(df.Table()) && UnitsColumn in old(df.Table()) && ConversionColumn in old(df.Table())
    ensures ok ==> df.Table() == KeptTable(old(df.Table()), CompleteMask(old(df.Table()), old(df.height)))
    ensures ok ==> df.height == CountTrue(CompleteMask(old(df.Table()), old(df.height)))
    ensures !ok ==> df.Table() == old(df.Table())
  {
    df.TableFits();
    if !(df.Has(SessionsColumn) && df.Has(UnitsColumn) && df.Has(ConversionColumn)) {
      return false;
    }
    var mask := CompleteMask(df.Table(), df.height);
    df.KeepRows(mask);
    ok := true;
  }

  /** The three columns line 79 names. */
  predicate HasCritical(t: map<string, seq<Cell>>)
  {
    SessionsColumn in t && UnitsColumn in t && ConversionColumn in t
  }

  /** The table clean_data has before its dropna (lines 36-74), from the loaded
    * labels and columns. */
  ghost function Prepared(labels: seq<string>, columns: seq<seq<Cell>>, n: nat): (r: map<string, seq<Cell>>)
    requires |labels| == |columns| && Rectangular(TableOf(TrafficConversion.Stripped(labels), columns), n)
    ensures Rectangular(r, n)
  {
    var t := NumbersRead(TableOf(TrafficConversion.Stripped(labels), columns));
    WithOrderValue(WithConversion(t, n), n)
  }

  /** Lines 33-87: clean_data; false for the KeyError of line 79, which ends the script. */
  method CleanData(df: Frame) returns (ok: bool)
    requires df.Valid()
    modifies df
    ensures df.Valid()
    ensures Rectangular(TableOf(TrafficConversion.Stripped(old(df.labels)), old(df.columns)), old(df.height))
    ensures ok <==> HasCritical(Prepared(old(df.labels), old(df.columns), old(df.height)))
    ensures !ok ==> df.Table() == Prepared(old(df.labels), old(df.columns), old(df.height))
    ensures ok ==> var p := Prepared(old(df.labels), old(df.columns), old(df.height));
      df.Table() == KeptTable(p, CompleteMask(p, old(df.height))) && df.height == CountTrue(CompleteMask(p, old(df.height)))
    ensures ok ==> Complete(df.Table(), df.height)
  {
    df.Relabel(Text.Strip);
    assert df.labels == TrafficConversion.Stripped(old(df.labels));
    df.TableIsTableOf();
    df.TableFits();
    ReadNumbers(df);
    AddConversion(df);
    AddOrderValue(df);
    df.TableFits();
    ghost var t := df.Table();
    ok := DropIncomplete(df);
    if ok {
      KeptComplete(t, old(df.height));
    }
  }

  // ---------------------------------------------------------------- find_top_and_bottom_performers (lines 89-117)

  /** One complete row: sessions, units and conversion are numbers, sales and
    * order value may be NaN (None) or absent. */
  datatype Listing = Listing(sessions: real, units: real, conversion: real, sales: Option<real>, aov: Option<real>)

  function ListingAt(t: map<string, seq<Cell>>, n: nat, i: nat): Listing
    requires Complete(t, n) && i < n
  {
    Listing(
      t[SessionsColumn][i].value,
      t[UnitsColumn][i].value,
      t[ConversionColumn][i].value,
      if SalesColumn in t then AsNumber(t[SalesColumn][i]) else None,
      if AovColumn in t then AsNumber(t[AovColumn][i]) else None)
  }

  function Listings(t: map<string, seq<Cell>>, n: nat): (r: seq<Listing>)
    requires Complete(t, n)
    ensures |r| == n && forall i :: 0 <= i < n ==> r[i] == ListingAt(t, n, i)
  {
    seq(n, i requires 0 <= i < n => ListingAt(t, n, i))
  }

  function SessionsOf(ls: seq<Listing>): (r: seq<real>)
    ensures |r| == |ls| && forall i :: 0 <= i < |ls| ==> r[i] == ls[i].sessions
  {
    seq(|ls|, i requires 0 <= i < |ls| => ls[i].sessions)
  }

  function ConversionsOf(ls: seq<Listing>): (r: seq<real>)
    ensures |r| == |ls| && forall i :: 0 <= i < |ls| ==> r[i] == ls[i].conversion
  {
    seq(|ls|, i requires 0 <= i < |ls| => ls[i].conversion)
  }

  /** sort_values('conversion_rate', ascending=False). */
  function ConversionKey(l: Listing): Key
  {
    Key(l.conversion, 0.0)
  }

  /** Line 96: sessions at or above the threshold. */
  predicate HighTraffic(l: Listing, threshold: Option<real>)
  {
    threshold.Some? && l.sessions >= threshold.value
  }

  /** Lines 93-117: head and tail of the high-traffic rows by falling conversion;
    * two empty frames when no row reaches the threshold. */
  function TopAndBottom(ls: seq<Listing>): (seq<Listing>, seq<Listing>)
  {
    var threshold := Quantile(SessionsOf(ls), 0.7);
    var high := Filter(ls, l => HighTraffic(l, threshold));
    if |high| == 0 then ([], [])
    else var sorted := SortDesc(high, ConversionKey); (Head(sorted, RankSize), Tail(sorted, RankSize))
  }

  /** The high-traffic rows by falling conversion. */
  function Ranking(ls: seq<Listing>): seq<Listing>
  {
    var threshold := Quantile(SessionsOf(ls), 0.7);
    SortDesc(Filter(ls, l => HighTraffic(l, threshold)), ConversionKey)
  }

  predicate Descending(s: seq<Listing>)
  {
    forall i, j :: 0 <= i < j < |s| ==> s[i].conversion >= s[j].conversion
  }

  /** The ranking holds the rows whose sessions reach the 70th percentile, each
    * as often as in the report, by falling conversion. */
  lemma RankingCorrect(ls: seq<Listing>)
    ensures var s := Ranking(ls); var threshold := Quantile(SessionsOf(ls), 0.7);
      multiset(s) == multiset(Filter(ls, l => HighTraffic(l, threshold))) &&
      (forall l :: l in s <==> l in ls && HighTraffic(l, threshold)) && Descending(s)
  {
    var threshold := Quantile(SessionsOf(ls), 0.7);
    var high := Filter(ls, l => HighTraffic(l, threshold));
    SortDescCorrect(high, ConversionKey);
    var s := Ranking(ls);
    forall l ensures l in s <==> l in high {
      assert l in s <==> l in multiset(s);
      assert l in high <==> l in multiset(high);
    }
    forall i, j | 0 <= i < j < |s| ensures s[i].conversion >= s[j].conversion {
      assert !Above(ConversionKey(s[j]), ConversionKey(s[i]));
    }
  }

  /** Head and tail are those of the ranking; when any row exists, neither is
    * empty, so lines 104-106 never return the two empty frames. */
  lemma TopAndBottomNonEmpty(ls: seq<Listing>)
    ensures TopAndBottom(ls) == (Head(Ranking(ls), RankSize), Tail(Ranking(ls), RankSize))
    ensures ls != [] ==> TopAndBottom(ls).0 != [] && TopAndBottom(ls).1 != []
  {
    var threshold := Quantile(SessionsOf(ls), 0.7);
    var high := Filter(ls, l => HighTraffic(l, threshold));
    SortDescCorrect(high, ConversionKey);
    if ls != [] {
      var xs := SessionsOf(ls);
      QuantileReached(xs, 0.7);
      var j :| 0 <= j < |xs| && xs[j] >= threshold.value;
      assert HighTraffic(ls[j], threshold);
      assert ls[j] in high;
    }
  }

  /** A descending sequence read backwards ascends. */
  lemma ReversedAscends(s: seq<Listing>)
    requires Descending(s)
    ensures var r := Reverse(s); forall i, j :: 0 <= i < j < |r| ==> r[i].conversion <= r[j].conversion
  {
  }

  /** Line 146: the tail is shown from the lowest conversion up. */
  lemma BottomShownWorstFirst(ls: seq<Listing>)
    ensures var shown := Reverse(TopAndBottom(ls).1);
      forall i, j :: 0 <= i < j < |shown| ==> shown[i].conversion <= shown[j].conversion
  {
    RankingCorrect(ls);
    TopAndBottomNonEmpty(ls);
    var s := Ranking(ls);
    var bottom := Tail(s, RankSize);
    assert bottom == s[|s| - |bottom|..];
    assert Descending(bottom) by {
      forall i, j | 0 <= i < j < |bottom| ensures bottom[i].conversion >= bottom[j].conversion {
        assert bottom[i] == s[|s| - |bottom| + i];
        assert bottom[j] == s[|s| - |bottom| + j];
      }
    }
    ReversedAscends(bottom);
  }

  // ---------------------------------------------------------------- calculate_optimization_potential (lines 158-232)

  /** Line 207-209: the units the sessions would add converting at `target` instead. */
  function ExtraUnits(l: Listing, target: real): real
  {
    l.sessions * (target / 100.0) - l.sessions * (l.conversion / 100.0)
  }

  /** Lines 200-210: a NaN or absent order value counts as 0. */
  function ExtraRevenue(l: Listing, target: real): real
  {
    ExtraUnits(l, target) * OrZero(l.aov)
  }

  function RevenueTotal(ls: seq<Listing>, target: real): real
  {
    if ls == [] then 0.0 else RevenueTotal(ls[..|ls| - 1], target) + ExtraRevenue(ls[|ls| - 1], target)
  }

  function SalesTotal(ls: seq<Listing>): real
  {
    if ls == [] then 0.0 else SalesTotal(ls[..|ls| - 1]) + OrZero(ls[|ls| - 1].sales)
  }

  function UnitsTotal(ls: seq<Listing>, target: real): real
  {
    if ls == [] then 0.0 else UnitsTotal(ls[..|ls| - 1], target) + ExtraUnits(ls[|ls| - 1], target)
  }

  /** Lines 196-214: the three running totals of one pass over the tail. */
  method RunningTotals(bottom: seq<Listing>, target: real) returns (revenue: real, sales: real, units: real)
    ensures revenue == RevenueTotal(bottom, target)
    ensures sales == SalesTotal(bottom)
    ensures units == UnitsTotal(bottom, target)
  {
    revenue, sales, units := 0.0, 0.0, 0.0;
    for i := 0 to |bottom|
      invariant revenue == RevenueTotal(bottom[..i], target)
      invariant sales == SalesTotal(bottom[..i])
      invariant units == UnitsTotal(bottom[..i], target)
    {
      assert bottom[..i + 1][..i] == bottom[..i];
      var l := bottom[i];
      var extra := ExtraUnits(l, target);
      revenue := revenue + extra * OrZero(l.aov);
      sales := sales + OrZero(l.sales);
      units := units + extra;
    }
    assert bottom[..|bottom|] == bottom;
  }

  datatype Estimate = Estimate(target: real, additionalRevenue: real, currentSales: real,
                               additionalUnits: real, uplift: real, gap: real)

  /** Line 222: uplift in percent of the current sales, 0 when they are not above 0. */
  function Uplift(revenue: real, sales: real): (r: real)
    ensures sales <= 0.0 ==> r == 0.0
    ensures sales > 0.0 ==> r * sales == revenue * 100.0
  {
    if sales > 0.0 then revenue / sales * 100.0 else 0.0
  }

  function Average(xs: seq<real>): real
    requires xs != []
  {
    Sum(xs) / |xs| as real
  }

  /** Lines 158-232 for a nonempty head and tail: the target is the head's median conversion. */
  function EstimateOf(top: seq<Listing>, bottom: seq<Listing>): Estimate
    requires top != [] && bottom != []
  {
    var target := Median(ConversionsOf(top)).value;
    var revenue := RevenueTotal(bottom, target);
    var sales := SalesTotal(bottom);
    Estimate(target, revenue, sales, UnitsTotal(bottom, target), Uplift(revenue, sales),
             Average(ConversionsOf(top)) - Average(ConversionsOf(bottom)))
  }

  method CalculatePotential(top: seq<Listing>, bottom: seq<Listing>) returns (e: Estimate)
    requires top != [] && bottom != []
    ensures e == EstimateOf(top, bottom)
  {
    var target := Median(ConversionsOf(top)).value;
    var revenue, sales, units := RunningTotals(bottom, target);
    e := Estimate(target, revenue, sales, units, Uplift(revenue, sales),
                  Average(ConversionsOf(top)) - Average(ConversionsOf(bottom)));
  }

  /** The extra units of a tail add up one product at a time: sessions times the
    * conversion gap, in percent. */
  lemma {:induction false} UnitsTotalIsGapSum(ls: seq<Listing>, target: real)
    ensures UnitsTotal(ls, target) == Sum(seq(|ls|, i requires 0 <= i < |ls| => ls[i].sessions * (target - ls[i].conversion) / 100.0))
  {
    var f := seq(|ls|, i requires 0 <= i < |ls| => ls[i].sessions * (target - ls[i].conversion) / 100.0);
    if ls != [] {
      var front := ls[..|ls| - 1];
      UnitsTotalIsGapSum(front, target);
      var g := seq(|front|, i requires 0 <= i < |front| => front[i].sessions * (target - front[i].conversion) / 100.0);
      forall i | 0 <= i < |g|
        ensures f[..|f| - 1][i] == g[i]
      {
        assert front[i] == ls[i];
      }
      assert f[..|f| - 1] == g;
      var l := ls[|ls| - 1];
      GapUnits(l.sessions, target, l.conversion);
    }
  }

  lemma GapUnits(s: real, target: real, c: real)
    ensures s * (target / 100.0) - s * (c / 100.0) == s * (target - c) / 100.0
  {
    assert s * (target / 100.0) - s * (c / 100.0) == s * (target / 100.0 - c / 100.0);
    assert target / 100.0 - c / 100.0 == (target - c) / 100.0;
  }

  lemma MulNonNegative(x: real, y: real)
    requires x >= 0.0 && y >= 0.0
    ensures x * y >= 0.0
  {
  }

  lemma {:induction false} TotalsNonNegative(ls: seq<Listing>, target: real)
    requires forall i :: 0 <= i < |ls| ==> ls[i].sessions >= 0.0 && ls[i].conversion <= target
    requires forall i :: 0 <= i < |ls| ==> OrZero(ls[i].aov) >= 0.0
    ensures UnitsTotal(ls, target) >= 0.0 && RevenueTotal(ls, target) >= 0.0
  {
    if ls != [] {
      TotalsNonNegative(ls[..|ls| - 1], target);
      var l := ls[|ls| - 1];
      assert ExtraUnits(l, target) == l.sessions * ((target - l.conversion) / 100.0);
      MulNonNegative(l.sessions, (target - l.conversion) / 100.0);
      MulNonNegative(ExtraUnits(l, target), OrZero(l.aov));
    }
  }

  /** A ranking of at least 30 rows splits at the 15th conversion: the head is
    * at or above it, the tail at or below. */
  lemma SplitAt(s: seq<Listing>) returns (lo: real)
    requires Descending(s) && |s| >= 2 * RankSize
    ensures forall i :: 0 <= i < |Head(s, RankSize)| ==> ConversionsOf(Head(s, RankSize))[i] >= lo
    ensures forall i :: 0 <= i < |Tail(s, RankSize)| ==> Tail(s, RankSize)[i].conversion <= lo
  {
    lo := s[RankSize - 1].conversion;
    var top, bottom := Head(s, RankSize), Tail(s, RankSize);
    forall i | 0 <= i < |top| ensures ConversionsOf(top)[i] >= lo {
      assert top[i] == s[i];
    }
    forall i | 0 <= i < |bottom| ensures bottom[i].conversion <= lo {
      assert bottom[i] == s[|s| - RankSize + i];
    }
  }

  /** A median is at least any bound all values respect. */
  lemma MedianAtLeast(xs: seq<real>, lo: real)
    requires xs != [] && forall i :: 0 <= i < |xs| ==> xs[i] >= lo
    ensures Median(xs).value >= lo
  {
    assert Median(xs) == Quantile(xs, 0.5);
    QuantileWithin(xs, 0.5);
  }

  /** A ranking of at least 30 rows, none with negative sessions or negative
    * order value: every tail row converts at most at the head's median, so
    * the estimate adds units and revenue, never removes them, and the head's
    * average conversion is at least the tail's. */
  lemma RankedEstimateNonNegative(s: seq<Listing>)
    requires Descending(s) && |s| >= 2 * RankSize
    requires forall l :: l in s ==> l.sessions >= 0.0 && OrZero(l.aov) >= 0.0
    ensures var e := EstimateOf(Head(s, RankSize), Tail(s, RankSize));
      e.additionalUnits >= 0.0 && e.additionalRevenue >= 0.0 && e.gap >= 0.0 && e.uplift >= 0.0
  {
    var top, bottom := Head(s, RankSize), Tail(s, RankSize);
    var lo := SplitAt(s);
    var topc, bottomc := ConversionsOf(top), ConversionsOf(bottom);
    MedianAtLeast(topc, lo);
    var target := Median(topc).value;
    forall i | 0 <= i < |bottom|
      ensures bottom[i].sessions >= 0.0 && bottom[i].conversion <= target && OrZero(bottom[i].aov) >= 0.0
    {
      assert bottom[i] == s[|s| - RankSize + i];
    }
    TotalsNonNegative(bottom, target);
    AverageAtLeast(topc, lo);
    AverageAtMost(bottomc, lo);
    var revenue, sales := RevenueTotal(bottom, target), SalesTotal(bottom);
    if sales > 0.0 {
      assert revenue / sales >= 0.0;
    }
  }

  /** The same for the report: at least 30 high-traffic rows, none with negative
    * sessions or negative order value. */
  lemma EstimateNonNegative(ls: seq<Listing>)
    requires |Ranking(ls)| >= 2 * RankSize
    requires forall l :: l in ls ==> l.sessions >= 0.0 && OrZero(l.aov) >= 0.0
    ensures TopAndBottom(ls).0 != [] && TopAndBottom(ls).1 != []
    ensures var e := EstimateOf(TopAndBottom(ls).0, TopAndBottom(ls).1);
      e.additionalUnits >= 0.0 && e.additionalRevenue >= 0.0 && e.gap >= 0.0 && e.uplift >= 0.0
  {
    RankingCorrect(ls);
    TopAndBottomNonEmpty(ls);
    RankedEstimateNonNegative(Ranking(ls));
  }

  lemma AverageAtLeast(xs: seq<real>, lo: real)
    requires xs != [] && forall i :: 0 <= i < |xs| ==> xs[i] >= lo
    ensures Average(xs) >= lo
  {
    SumAtLeast(xs, lo);
  }

  lemma AverageAtMost(xs: seq<real>, hi: real)
    requires xs != [] && forall i :: 0 <= i < |xs| ==> xs[i] <= hi
    ensures Average(xs) <= hi
  {
    SumAtMost(xs, hi);
  }

  // ---------------------------------------------------------------- main (lines 307-339)

  datatype Outcome =
    | MissingColumn   // KeyError at line 79
    | NoData          // lines 318-320
    | NotEnough       // lines 325-327
    | SalesMissing    // KeyError when the rows are displayed without 'Ordered Product Sales'
    | Analysed(top: seq<Listing>, bottomShown: seq<Listing>, estimate: Estimate)

  /** Lines 316-333 on the cleaned table. */
  function Analysis(t: map<string, seq<Cell>>, n: nat): Outcome
    requires Complete(t, n)
  {
    if n == 0 then NoData
    else
      var (top, bottom) := TopAndBottom(Listings(t, n));
      if top == [] || bottom == [] then NotEnough
      else if SalesColumn !in t then SalesMissing
      else Analysed(top, Reverse(bottom), EstimateOf(top, bottom))
  }

  /** Once cleaning succeeds with rows left, the run never stops for want of products. */
  lemma NeverNotEnough(t: map<string, seq<Cell>>, n: nat)
    requires Complete(t, n)
    ensures Analysis(t, n) != NotEnough
  {
    TopAndBottomNonEmpty(Listings(t, n));
  }

  /** main (lines 307-336) on the loaded frame. */
  method AnalyzeReport3(df: Frame) returns (outcome: Outcome)
    requires df.Valid()
    modifies df
    ensures df.Valid()
    ensures Rectangular(TableOf(TrafficConversion.Stripped(old(df.labels)), old(df.columns)), old(df.height))
    ensures outcome.MissingColumn? <==> !HasCritical(Prepared(old(df.labels), old(df.columns), old(df.height)))
    ensures !outcome.MissingColumn? ==> var p := Prepared(old(df.labels), old(df.columns), old(df.height));
      df.Table() == KeptTable(p, CompleteMask(p, old(df.height))) && df.height == CountTrue(CompleteMask(p, old(df.height)))
    ensures !outcome.MissingColumn? ==> Complete(df.Table(), df.height) && outcome == Analysis(df.Table(), df.height)
  {
    var ok := CleanData(df);
    if !ok {
      return MissingColumn;
    }
    var t := df.Table();
    if df.height == 0 {
      return NoData;
    }
    var top, bottom := TopAndBottom(Listings(t, df.height)).0, TopAndBottom(Listings(t, df.height)).1;
    if top == [] || bottom == [] {
      return NotEnough;
    }
    if SalesColumn !in t {
      return SalesMissing;
    }
    var e := CalculatePotential(top, bottom);
    outcome := Analysed(top, Reverse(bottom), e);
  }
}
