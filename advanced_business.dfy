/** advanced_business_analysis.py: revenue per session, the performance tiers
  * from the sales and conversion quartiles, the buy-box bands and the list of
  * actionable insights. */
module AdvancedBusiness {
  import opened Common
  import opened Cells
  import opened ReportRows

  // ---------------------------------------------------------------- revenue efficiency

  /** Line 80: sales over sessions plus one, so a listing without sessions
    * still gets a figure. */
  function RevenueEfficiency(l: Listing): (q: Quotient)
    ensures l.sales.None? || l.sessions.None? ==> q == NaN
    ensures l.sales.Some? && AtLeast(l.sessions, 0.0) ==>
      q.Finite? && q.value * (l.sessions.value + 1.0) == l.sales.value
    ensures l.sales.Some? && EqualTo(l.sessions, 0.0) ==> q == Finite(l.sales.value)
  {
    var shifted := if l.sessions.Some? then Some(l.sessions.value + 1.0) else None;
    Divide(l.sales, shifted)
  }

  /** Revenue per session never exceeds the sales it is taken from. */
  lemma RevenueEfficiencyBounds(l: Listing)
    requires AtLeast(l.sales, 0.0) && AtLeast(l.sessions, 0.0)
    ensures RevenueEfficiency(l).Finite?
    ensures 0.0 <= RevenueEfficiency(l).value <= l.sales.value
  {
    var s := l.sessions.value + 1.0;
    var q := RevenueEfficiency(l).value;
    assert q * s == l.sales.value;
    assert q == l.sales.value / s;
    DivideBetween(l.sales.value, s, 0.0, l.sales.value);
  }

  /** The revenue_efficiency column, one figure per row. */
  function RevenueEfficiencyColumn(ls: seq<Listing>): (r: seq<Quotient>)
    ensures |r| == |ls| && forall i :: 0 <= i < |ls| ==> r[i] == RevenueEfficiency(ls[i])
  {
    seq(|ls|, i requires 0 <= i < |ls| => RevenueEfficiency(ls[i]))
  }

  // ---------------------------------------------------------------- performance tiers

  /** The labels qcut gives to the four quartiles (lines 96-97). */
  datatype Quartile = Low | Medium | High | Top

  /** A row with its two quartile labels; NaN gets no label. */
  datatype Tiered = Tiered(row: Listing, salesQuartile: Option<Quartile>,
                           conversionQuartile: Option<Quartile>)

  /** Line 106: top sales quartile and a high or top conversion quartile. */
  predicate Star(t: Tiered)
  {
    t.salesQuartile == Some(Top)
    && (t.conversionQuartile == Some(High) || t.conversionQuartile == Some(Top))
  }

  /** Line 113: low on both. */
  predicate Underperformer(t: Tiered)
  {
    t.salesQuartile == Some(Low) && t.conversionQuartile == Some(Low)
  }

  function StarPerformers(ts: seq<Tiered>): (r: seq<Tiered>)
    ensures forall t :: t in r <==> t in ts && Star(t)
  {
    Filter(ts, Star)
  }

  function Underperformers(ts: seq<Tiered>): (r: seq<Tiered>)
    ensures forall t :: t in r <==> t in ts && Underperformer(t)
  {
    Filter(ts, Underperformer)
  }

  /** No row is both a star and an underperformer, so the two lists together
    * are never longer than the frame. */
  lemma {:induction false} TiersApart(ts: seq<Tiered>)
    ensures |StarPerformers(ts)| + |Underperformers(ts)| <= |ts|
  {
    if ts != [] {
      TiersApart(ts[..|ts| - 1]);
    }
  }

  /** One cell of the crosstab of line 100: the rows with both labels. */
  function CellTest(s: Quartile, c: Quartile): Tiered -> bool
  {
    (t: Tiered) => t.salesQuartile == Some(s) && t.conversionQuartile == Some(c)
  }

  function MarginTest(s: Quartile): Tiered -> bool
  {
    (t: Tiered) => t.salesQuartile == Some(s) && t.conversionQuartile.Some?
  }

  /** One cell of the crosstab of line 100: the rows with both labels. */
  function CrosstabCell(ts: seq<Tiered>, s: Quartile, c: Quartile): nat
  {
    Count(ts, CellTest(s, c))
  }

  /** The "All" column of the crosstab: rows with this sales label and any
    * conversion label (rows with a NaN label are not counted). */
  function RowMargin(ts: seq<Tiered>, s: Quartile): nat
  {
    Count(ts, MarginTest(s))
  }

  /** The four cells of a crosstab row add up to its margin. */
  lemma {:induction false} CrosstabRowAddsUp(ts: seq<Tiered>, s: Quartile)
    ensures CrosstabCell(ts, s, Low) + CrosstabCell(ts, s, Medium)
            + CrosstabCell(ts, s, High) + CrosstabCell(ts, s, Top) == RowMargin(ts, s)
  {
    if ts != [] {
      CrosstabRowAddsUp(ts[..|ts| - 1], s);
      CountStep(ts, CellTest(s, Low));
      CountStep(ts, CellTest(s, Medium));
      CountStep(ts, CellTest(s, High));
      CountStep(ts, CellTest(s, Top));
      CountStep(ts, MarginTest(s));
      var t := ts[|ts| - 1];
      if t.conversionQuartile.Some? {
        var c := t.conversionQuartile.value;
        assert c == Low || c == Medium || c == High || c == Top;
      }
    }
  }

  // ---------------------------------------------------------------- buy-box bands

  /** The labels of lines 133-135. */
  datatype Band = BandLow | BandMedium | BandHigh | BandDominant

  function LowerEdge(b: Band): real
  {
    match b
    case BandLow => 0.0
    case BandMedium => 25.0
    case BandHigh => 50.0
    case BandDominant => 75.0
  }

  function UpperEdge(b: Band): real
  {
    LowerEdge(b) + 25.0
  }

  /** `pd.cut` with bins 0, 25, 50, 75, 100: right-closed intervals, and no
    * band outside (0, 100]. */
  function BandOf(x: real): (r: Option<Band>)
    ensures r.Some? <==> 0.0 < x <= 100.0
    ensures r.Some? ==> LowerEdge(r.value) < x <= UpperEdge(r.value)
  {
    if x <= 0.0 || x > 100.0 then None
    else if x <= 25.0 then Some(BandLow)
    else if x <= 50.0 then Some(BandMedium)
    else if x <= 75.0 then Some(BandHigh)
    else Some(BandDominant)
  }

  /** Each value has at most one band: its interval decides it. */
  lemma BandOfInterval(x: real, b: Band)
    ensures BandOf(x) == Some(b) <==> LowerEdge(b) < x <= UpperEdge(b)
  {
  }

  /** Line 126: rows whose buy-box figure is present and above zero. */
  predicate HasBuyBox(l: Listing)
  {
    Greater(l.buyBox, 0.0)
  }

  function BuyBoxRows(ls: seq<Listing>): (r: seq<Listing>)
    ensures forall l :: l in r <==> l in ls && HasBuyBox(l)
    ensures r == [] <==> forall i :: 0 <= i < |ls| ==> !HasBuyBox(ls[i])
  {
    var r := Filter(ls, HasBuyBox);
    assert r != [] ==> r[0] in ls;
    r
  }

  predicate InBand(l: Listing, b: Band)
  {
    l.buyBox.Some? && BandOf(l.buyBox.value) == Some(b)
  }

  function BandTest(b: Band): Listing -> bool
  {
    (l: Listing) => InBand(l, b)
  }

  function BandRows(rows: seq<Listing>, b: Band): (r: seq<Listing>)
    ensures forall l :: l in r <==> l in rows && InBand(l, b)
  {
    Filter(rows, BandTest(b))
  }

  predicate Banded(l: Listing)
  {
    AtMost(l.buyBox, 100.0)
  }

  /** Every buy-box row up to 100% lands in exactly one band. */
  lemma {:induction false} BandsPartition(rows: seq<Listing>)
    requires forall i :: 0 <= i < |rows| ==> HasBuyBox(rows[i])
    ensures |BandRows(rows, BandLow)| + |BandRows(rows, BandMedium)| + |BandRows(rows, BandHigh)|
            + |BandRows(rows, BandDominant)| == |Filter(rows, Banded)|
  {
    if rows != [] {
      var n := |rows| - 1;
      BandsPartition(rows[..n]);
      CountStep(rows, BandTest(BandLow));
      CountStep(rows, BandTest(BandMedium));
      CountStep(rows, BandTest(BandHigh));
      CountStep(rows, BandTest(BandDominant));
      CountStep(rows, Banded);
      OneBand(rows[n]);
    }
  }

  /** A buy-box row is in one band when it is at most 100%, and in none otherwise. */
  lemma OneBand(l: Listing)
    requires HasBuyBox(l)
    ensures (if BandTest(BandLow)(l) then 1 else 0) + (if BandTest(BandMedium)(l) then 1 else 0)
            + (if BandTest(BandHigh)(l) then 1 else 0) + (if BandTest(BandDominant)(l) then 1 else 0)
            == if Banded(l) then 1 else 0
  {
    if Banded(l) {
      assert BandOf(l.buyBox.value).Some?;
    }
  }

  /** One line of the table of lines 137-141, rounded to two decimals. */
  datatype BandStats = BandStats(band: Band, salesMean: Option<real>, salesSum: real,
                                 salesCount: nat, conversionMean: Option<real>, unitsSum: real)

  function StatsOfBand(rows: seq<Listing>, b: Band): (s: BandStats)
    ensures s.band == b && s.salesCount <= |BandRows(rows, b)|
    ensures s.salesMean.None? <==> s.salesCount == 0
  {
    var members := BandRows(rows, b);
    var counted := WithValue(members, Sales);
    assert counted == [] <==> forall i :: 0 <= i < |members| ==> Value(members[i], Sales).None? by {
      if counted != [] {
        assert counted[0] in members;
      }
    }
    BandStats(b, Rounded(Average(members, Sales)), RoundTo(Total(members, Sales), 2), |counted|,
              Rounded(Average(members, Conversion)), RoundTo(Total(members, Units), 2))
  }

  /** Lines 126-141: nothing when no row has buy-box data (the early return),
    * otherwise one line per band in label order. Empty bands keep their line,
    * as grouping on a categorical column does. */
  function BuyBoxImpact(ls: seq<Listing>): (r: Option<seq<BandStats>>)
    ensures r.None? <==> forall i :: 0 <= i < |ls| ==> !HasBuyBox(ls[i])
    ensures r.Some? ==> r.value == BandTable(BuyBoxRows(ls))
  {
    var rows := BuyBoxRows(ls);
    if rows == [] then None else Some(BandTable(rows))
  }

  /** The categories of the banding, in label order. */
  const Bands: seq<Band> := [BandLow, BandMedium, BandHigh, BandDominant]

  /** The four lines in label order. */
  function BandTable(rows: seq<Listing>): (t: seq<BandStats>)
    ensures |t| == 4
    ensures forall k :: 0 <= k < 4 ==> t[k] == StatsOfBand(rows, Bands[k]) && t[k].band == Bands[k]
  {
    seq(4, k requires 0 <= k < 4 => StatsOfBand(rows, Bands[k]))
  }

  // ---------------------------------------------------------------- insights

  /** `x - y` on floats that may be NaN. */
  function Difference(x: Option<real>, y: Option<real>): (r: Option<real>)
    ensures r.Some? <==> x.Some? && y.Some?
    ensures r.Some? ==> r.value + y.value == x.value
  {
    if x.Some? && y.Some? then Some(x.value - y.value) else None
  }

  /** Lines 193-195: how much higher the Prime mean conversion is than the
    * non-Prime one, in percent of the latter; NaN or infinite as pandas gives it. */
  function Lift(prime: Option<real>, other: Option<real>): (q: Quotient)
    ensures q.Finite? <==> prime.Some? && other.Some? && other.value != 0.0
    ensures q.Finite? ==> q.value == (prime.value - other.value) / other.value * 100.0
  {
    Percent(Divide(Difference(prime, other), other))
  }

  /** With a positive non-Prime mean the lift has the sign of the difference. */
  lemma LiftSign(prime: real, other: real)
    requires other > 0.0
    ensures Lift(Some(prime), Some(other)).Finite?
    ensures Lift(Some(prime), Some(other)).value > 0.0 <==> prime > other
    ensures Lift(Some(prime), Some(other)).value == 0.0 <==> prime == other
  {
    QuotientSign(prime - other, other);
  }

  lemma QuotientSign(d: real, n: real)
    requires n > 0.0
    ensures d / n > 0.0 <==> d > 0.0
    ensures d / n == 0.0 <==> d == 0.0
  {
    var q := d / n;
    assert q * n == d;
    if q > 0.0 {
      MulNonNegative(q, n);
      assert q * n != 0.0;
    }
    if d > 0.0 {
      DivideBetween(d, n, 0.0, d / n);
    }
  }

  function PrimeTest(prime: bool): Listing -> bool
  {
    (l: Listing) => l.prime == prime
  }

  /** A group of `groupby('is_prime')`; it exists when the frame has such a row. */
  function PrimeGroup(ls: seq<Listing>, prime: bool): (r: seq<Listing>)
    ensures r == [] <==> forall i :: 0 <= i < |ls| ==> ls[i].prime != prime
  {
    var r := Filter(ls, PrimeTest(prime));
    assert r != [] ==> r[0] in ls;
    r
  }

  /** The group's mean conversion after `.round(2)` (line 191). */
  function GroupConversion(ls: seq<Listing>, prime: bool): Option<real>
  {
    Rounded(Average(PrimeGroup(ls, prime), Conversion))
  }

  /** The three counted filters of lines 200, 205-206 and 221-222. */
  datatype Flag = NoBuyBoxTraffic | HighTrafficLowConversion | LowAovMultiUnit

  /** The percentiles those filters compare against. */
  datatype InsightCuts = InsightCuts(sessions70: Option<real>, conversion30: Option<real>,
                                     aov25: Option<real>)

  function InsightCutsOf(ls: seq<Listing>): InsightCuts
  {
    InsightCuts(Percentile(ls, Sessions, 0.7), Percentile(ls, Conversion, 0.3),
                Percentile(ls, Aov, 0.25))
  }

  /** All three compare strictly. */
  predicate Raises(l: Listing, f: Flag, t: InsightCuts)
  {
    match f
    case NoBuyBoxTraffic => EqualTo(l.buyBox, 0.0) && Greater(l.sessions, 5.0)
    case HighTrafficLowConversion =>
      GreaterThanThreshold(l.sessions, t.sessions70) && LessThanThreshold(l.conversion, t.conversion30)
    case LowAovMultiUnit => LessThanThreshold(l.aov, t.aov25) && Greater(l.units, 2.0)
  }

  function FlagTest(f: Flag, t: InsightCuts): Listing -> bool
  {
    (l: Listing) => Raises(l, f, t)
  }

  function FlaggedRows(ls: seq<Listing>, f: Flag, t: InsightCuts): (r: seq<Listing>)
    ensures forall l :: l in r <==> l in ls && Raises(l, f, t)
  {
    Filter(ls, FlagTest(f, t))
  }

  /** Summed sales of one category (NaN counts as nothing). */
  function CategorySales(ls: seq<Listing>, c: string): real
  {
    Total(InCategory(ls, c), Sales)
  }

  function CategorySalesKey(ls: seq<Listing>): string -> Key
  {
    (c: string) => Key(CategorySales(ls, c), 0.0)
  }

  /** Lines 211-215: the categories by falling summed sales. */
  function CategoryRanking(ls: seq<Listing>): seq<string>
  {
    SortDesc(CategoryNames(ls), CategorySalesKey(ls))
  }

  /** Line 217: the first category of the ranking. */
  function TopCategory(ls: seq<Listing>): string
    requires CategoryNames(ls) != []
  {
    SortDescCorrect(CategoryNames(ls), CategorySalesKey(ls));
    CategoryRanking(ls)[0]
  }

  /** The top category is a category of the frame and no category sold more. */
  lemma TopCategoryBest(ls: seq<Listing>)
    requires CategoryNames(ls) != []
    ensures TopCategory(ls) in CategoryNames(ls)
    ensures forall c :: c in CategoryNames(ls) ==> CategorySales(ls, c) <= CategorySales(ls, TopCategory(ls))
  {
    var names := CategoryNames(ls);
    var key := CategorySalesKey(ls);
    var r := CategoryRanking(ls);
    SortDescCorrect(names, key);
    FirstIsTop(r, key);
    assert r[0] in multiset(names);
    forall c | c in names ensures CategorySales(ls, c) <= CategorySales(ls, r[0]) {
      assert c in multiset(r);
      assert !Above(key(c), key(r[0]));
    }
  }

  datatype Insight =
    | PrimeConversionLift(lift: Quotient)
    | Opportunity(flag: Flag, count: nat)
    | LeadingCategory(name: string, sales: real)

  /** What the function returns, or the exception it raises: a KeyError when
    * one of the two Prime groups is missing (the True group is looked up
    * first), an IndexError when no row has a category. */
  datatype Outcome = Insights(entries: seq<Insight>) | MissingPrimeGroup(prime: bool) | NoCategory

  /** The number of rows a filter of the insights finds. */
  function FlagCount(ls: seq<Listing>, f: Flag): nat
  {
    |FlaggedRows(ls, f, InsightCutsOf(ls))|
  }

  function FlagCounts(ls: seq<Listing>): Flag -> nat
  {
    (f: Flag) => FlagCount(ls, f)
  }

  function PrimeLift(ls: seq<Listing>): Quotient
  {
    Lift(GroupConversion(ls, true), GroupConversion(ls, false))
  }

  /** The insight a filter adds: one entry with its count when it found rows. */
  function Raised(f: Flag, n: nat): seq<Insight>
  {
    if n > 0 then [Opportunity(f, n)] else []
  }

  /** The insights in the order lines 197-224 append them. */
  function Assembled(lift: Quotient, counts: Flag -> nat, top: string, topSales: real): seq<Insight>
  {
    [PrimeConversionLift(lift)] + Raised(NoBuyBoxTraffic, counts(NoBuyBoxTraffic))
      + Raised(HighTrafficLowConversion, counts(HighTrafficLowConversion))
      + [LeadingCategory(top, topSales)] + Raised(LowAovMultiUnit, counts(LowAovMultiUnit))
  }

  /** The list opens with the lift, names the category once, reports a
    * filter exactly when it found rows, and with their number. */
  lemma AssembledShape(lift: Quotient, counts: Flag -> nat, top: string, topSales: real)
    ensures var r := Assembled(lift, counts, top, topSales);
      r[0] == PrimeConversionLift(lift)
      && (forall f: Flag :: Opportunity(f, counts(f)) in r <==> counts(f) > 0)
      && (forall e :: e in r && e.Opportunity? ==> e.count == counts(e.flag) && e.count > 0)
      && (forall e :: e in r && e.LeadingCategory? ==> e == LeadingCategory(top, topSales))
      && 2 <= |r| <= 5
  {
    var r := Assembled(lift, counts, top, topSales);
    var a := Raised(NoBuyBoxTraffic, counts(NoBuyBoxTraffic));
    var b := Raised(HighTrafficLowConversion, counts(HighTrafficLowConversion));
    var c := Raised(LowAovMultiUnit, counts(LowAovMultiUnit));
    assert r == [PrimeConversionLift(lift)] + a + b + [LeadingCategory(top, topSales)] + c;
    assert forall e :: e in r <==>
      e == PrimeConversionLift(lift) || e in a || e in b || e == LeadingCategory(top, topSales) || e in c;
    forall f: Flag ensures Opportunity(f, counts(f)) in r <==> counts(f) > 0 {
      match f
      case NoBuyBoxTraffic => assert Opportunity(f, counts(f)) !in b + c;
      case HighTrafficLowConversion => assert Opportunity(f, counts(f)) !in a + c;
      case LowAovMultiUnit => assert Opportunity(f, counts(f)) !in a + b;
    }
  }

  function InsightList(ls: seq<Listing>): seq<Insight>
    requires CategoryNames(ls) != []
  {
    var top := TopCategory(ls);
    Assembled(PrimeLift(ls), FlagCounts(ls), top, CategorySales(ls, top))
  }

  /** On a frame: the category named is the best-selling one. */
  lemma InsightListShape(ls: seq<Listing>)
    requires CategoryNames(ls) != []
    ensures InsightList(ls)[0] == PrimeConversionLift(PrimeLift(ls))
    ensures forall f: Flag :: Opportunity(f, FlagCount(ls, f)) in InsightList(ls) <==> FlagCount(ls, f) > 0
    ensures forall e :: e in InsightList(ls) && e.Opportunity? ==>
      e.count == FlagCount(ls, e.flag) && e.count > 0
    ensures forall e :: e in InsightList(ls) && e.LeadingCategory? ==>
      e.name in CategoryNames(ls) && e.sales == CategorySales(ls, e.name)
      && forall c :: c in CategoryNames(ls) ==> CategorySales(ls, c) <= e.sales
  {
    TopCategoryBest(ls);
    var top := TopCategory(ls);
    var counts := FlagCounts(ls);
    AssembledShape(PrimeLift(ls), counts, top, CategorySales(ls, top));
    var r := InsightList(ls);
    forall f: Flag ensures Opportunity(f, FlagCount(ls, f)) in r <==> FlagCount(ls, f) > 0 {
      assert counts(f) == FlagCount(ls, f);
    }
  }

  /** Lines 180-230: the list, or the exception raised on the way. */
  method GenerateInsights(ls: seq<Listing>) returns (o: Outcome)
    ensures o == MissingPrimeGroup(true) <==> forall i :: 0 <= i < |ls| ==> !ls[i].prime
    ensures o == MissingPrimeGroup(false) <==>
      (exists i :: 0 <= i < |ls| && ls[i].prime) && forall i :: 0 <= i < |ls| ==> ls[i].prime
    ensures o == NoCategory <==>
      (exists i :: 0 <= i < |ls| && ls[i].prime) && (exists i :: 0 <= i < |ls| && !ls[i].prime)
      && forall i :: 0 <= i < |ls| ==> ls[i].category.None?
    ensures o.Insights? ==> CategoryNames(ls) != [] && o.entries == InsightList(ls)
  {
    var primeRows := PrimeGroup(ls, true);
    var otherRows := PrimeGroup(ls, false);
    if primeRows == [] {
      return MissingPrimeGroup(true);
    }
    if otherRows == [] {
      return MissingPrimeGroup(false);
    }
    var insights := [PrimeConversionLift(PrimeLift(ls))];
    insights := insights + Raised(NoBuyBoxTraffic, FlagCount(ls, NoBuyBoxTraffic));
    insights := insights + Raised(HighTrafficLowConversion, FlagCount(ls, HighTrafficLowConversion));
    NoCategoryNames(ls);
    if CategoryNames(ls) == [] {
      return NoCategory;
    }
    var top := TopCategory(ls);
    insights := insights + [LeadingCategory(top, CategorySales(ls, top))];
    insights := insights + Raised(LowAovMultiUnit, FlagCount(ls, LowAovMultiUnit));
    o := Insights(insights);
  }
}
