/** advanced_analysis_new.py: the quadrant colours of the dashboard, the four
  * performance segments at the 75th percentile, the four opportunity lists
  * and the executive figures of the insights file. */
module AdvancedAnalysis {
  import opened Common
  import opened Cells
  import opened ReportRows

  /** The two 75th-percentile cut points (lines 126-127 and 170-171). */
  datatype Cuts = Cuts(sessions: Option<real>, conversion: Option<real>)

  function QuartileCuts(ls: seq<Listing>): Cuts
  {
    Cuts(Percentile(ls, Sessions, 0.75), Percentile(ls, Conversion, 0.75))
  }

  predicate HighSessions(l: Listing, t: Cuts)
  {
    AtLeastThreshold(l.sessions, t.sessions)
  }

  predicate LowSessions(l: Listing, t: Cuts)
  {
    LessThanThreshold(l.sessions, t.sessions)
  }

  predicate HighConversion(l: Listing, t: Cuts)
  {
    AtLeastThreshold(l.conversion, t.conversion)
  }

  predicate LowConversion(l: Listing, t: Cuts)
  {
    LessThanThreshold(l.conversion, t.conversion)
  }

  // ---------------------------------------------------------------- segments

  datatype Segment = StarPerformers | TrafficOpportunities | ConversionStars | QuestionMarks

  /** The boolean masks of lines 174-183. */
  predicate InSegment(l: Listing, t: Cuts, s: Segment)
  {
    match s
    case StarPerformers => HighSessions(l, t) && HighConversion(l, t)
    case TrafficOpportunities => HighSessions(l, t) && LowConversion(l, t)
    case ConversionStars => LowSessions(l, t) && HighConversion(l, t)
    case QuestionMarks => LowSessions(l, t) && LowConversion(l, t)
  }

  /** Both values and both cut points are numbers. */
  predicate Defined(l: Listing, t: Cuts)
  {
    l.sessions.Some? && l.conversion.Some? && t.sessions.Some? && t.conversion.Some?
  }

  /** The segment a row falls in, decided one comparison at a time: the four
    * masks are disjoint, and together they cover exactly the rows whose
    * values are defined. */
  function SegmentOf(l: Listing, t: Cuts): (r: Option<Segment>)
    ensures r.Some? <==> Defined(l, t)
    ensures forall s :: InSegment(l, t, s) <==> r == Some(s)
  {
    if !Defined(l, t) then None
    else if l.sessions.value >= t.sessions.value then
      if l.conversion.value >= t.conversion.value then Some(StarPerformers) else Some(TrafficOpportunities)
    else
      if l.conversion.value >= t.conversion.value then Some(ConversionStars) else Some(QuestionMarks)
  }

  /** `df[mask]` for one segment, in file order. */
  function SegmentRows(ls: seq<Listing>, t: Cuts, s: Segment): (r: seq<Listing>)
    ensures forall l :: l in r <==> l in ls && InSegment(l, t, s)
  {
    Filter(ls, (l: Listing) => InSegment(l, t, s))
  }

  /** The rows with defined values, in file order. */
  function DefinedRows(ls: seq<Listing>, t: Cuts): (r: seq<Listing>)
    ensures forall l :: l in r <==> l in ls && Defined(l, t)
  {
    Filter(ls, (l: Listing) => Defined(l, t))
  }

  /** Every row with defined values is counted in exactly one segment. */
  lemma {:induction false} SegmentsPartition(ls: seq<Listing>, t: Cuts)
    ensures |SegmentRows(ls, t, StarPerformers)| + |SegmentRows(ls, t, TrafficOpportunities)|
            + |SegmentRows(ls, t, ConversionStars)| + |SegmentRows(ls, t, QuestionMarks)|
            == |DefinedRows(ls, t)|
  {
    if ls != [] {
      var n := |ls| - 1;
      SegmentsPartition(ls[..n], t);
      var o := SegmentOf(ls[n], t);
    }
  }

  /** Lines 170-183. */
  function Segments(ls: seq<Listing>): seq<seq<Listing>>
  {
    var t := QuartileCuts(ls);
    [SegmentRows(ls, t, StarPerformers), SegmentRows(ls, t, TrafficOpportunities),
     SegmentRows(ls, t, ConversionStars), SegmentRows(ls, t, QuestionMarks)]
  }

  // ---------------------------------------------------------------- colours

  datatype Colour = Green | Red | Blue | Gray

  function Painted(s: Segment): Colour
  {
    match s
    case StarPerformers => Green
    case TrafficOpportunities => Red
    case ConversionStars => Blue
    case QuestionMarks => Gray
  }

  /** The if-chain of lines 132-139. */
  function ColourOf(l: Listing, t: Cuts): Colour
  {
    if HighSessions(l, t) && HighConversion(l, t) then Green
    else if HighSessions(l, t) && LowConversion(l, t) then Red
    else if LowSessions(l, t) && HighConversion(l, t) then Blue
    else Gray
  }

  /** A row is painted in its segment's colour, and gray also when a value or a
    * cut point is NaN. */
  lemma ColourFollowsSegment(l: Listing, t: Cuts)
    ensures SegmentOf(l, t).Some? ==> ColourOf(l, t) == Painted(SegmentOf(l, t).value)
    ensures SegmentOf(l, t).None? ==> ColourOf(l, t) == Gray
  {
    var o := SegmentOf(l, t);
  }

  /** Lines 130-139: the loop that builds the colour list row by row, against
    * the cut points of lines 126-127 (QuartileCuts). */
  method QuadrantColours(ls: seq<Listing>, t: Cuts) returns (colours: seq<Colour>)
    ensures |colours| == |ls|
    ensures forall i :: 0 <= i < |ls| ==> colours[i] == ColourOf(ls[i], t)
  {
    colours := [];
    var i := 0;
    while i < |ls|
      invariant 0 <= i <= |ls| && |colours| == i
      invariant forall k :: 0 <= k < i ==> colours[k] == ColourOf(ls[k], t)
    {
      colours := colours + [ColourOf(ls[i], t)];
      i := i + 1;
    }
  }

  /** The quadrant plot and the segment analysis agree: green, red and blue
    * rows are exactly the first three segments. */
  lemma ColoursMatchSegments(ls: seq<Listing>, t: Cuts, i: nat)
    requires i < |ls|
    ensures (ColourOf(ls[i], t) == Green <==> ls[i] in SegmentRows(ls, t, StarPerformers))
      && (ColourOf(ls[i], t) == Red <==> ls[i] in SegmentRows(ls, t, TrafficOpportunities))
      && (ColourOf(ls[i], t) == Blue <==> ls[i] in SegmentRows(ls, t, ConversionStars))
      && (ColourOf(ls[i], t) == Gray <==> ls[i] in SegmentRows(ls, t, QuestionMarks) || !Defined(ls[i], t))
  {
    ColourFollowsSegment(ls[i], t);
  }

  // ---------------------------------------------------------------- segment report

  /** What lines 186-199 and 289-293 report for one segment. */
  datatype SegmentSummary = SegmentSummary(count: nat, totalSales: real, avgConversion: Option<real>,
                                           avgAov: Option<real>, top: seq<Listing>)

  /** An empty segment reports no sales and no products; an average is NaN
    * exactly when no row of the segment has a value. */
  function Summarize(rows: seq<Listing>): (r: SegmentSummary)
    ensures r.avgAov.None? <==> forall i :: 0 <= i < |rows| ==> Value(rows[i], Aov).None?
    ensures r.avgConversion.None? <==> forall i :: 0 <= i < |rows| ==> Value(rows[i], Conversion).None?
    ensures rows == [] ==> r.totalSales == 0.0 && r.top == []
  {
    if rows == [] then
      assert Present(ColumnOf(rows, Sales)) == [];
      assert WithValue(rows, Sales) == [];
      SegmentSummary(0, 0.0, None, None, [])
    else
      SegmentSummary(|rows|, Total(rows, Sales), Average(rows, Conversion),
                     Average(rows, Aov), NLargest(rows, Sales, 3))
  }

  /** A segment's top three are its best sellers, drawn from the segment. */
  lemma SummaryTopCorrect(ls: seq<Listing>, t: Cuts, s: Segment)
    ensures var rows := SegmentRows(ls, t, s);
      var top := NLargest(rows, Sales, 3);
      var m := |WithValue(rows, Sales)|;
      |top| == (if 3 < m then 3 else m)
      && (forall l :: l in top ==> l in ls && InSegment(l, t, s) && l.sales.Some?)
      && (forall i, j :: 0 <= i < j < |top| ==> top[j].sales.value <= top[i].sales.value)
      && (forall x, y :: x in top && y in rows && y.sales.Some? && y !in top ==> y.sales.value <= x.sales.value)
  {
    var rows := SegmentRows(ls, t, s);
    NLargestCorrect(rows, Sales, 3);
  }

  // ---------------------------------------------------------------- opportunities

  /** The four opportunity filters of lines 211-251, with their cut points. */
  datatype Rule =
    | NoBuyBox
    | PrimeUpgrade(salesCut: Option<real>)
    | HighTrafficLowConversion(sessionsCut: Option<real>, conversionCut: Option<real>)
    | Bundle(aovCut: Option<real>)

  predicate Matches(l: Listing, r: Rule)
  {
    match r
    case NoBuyBox => EqualTo(l.buyBox, 0.0) && Greater(l.sessions, 0.0)
    case PrimeUpgrade(cut) => !l.prime && AtLeastThreshold(l.sales, cut)
    case HighTrafficLowConversion(sc, cc) => AtLeastThreshold(l.sessions, sc) && AtMostThreshold(l.conversion, cc)
    case Bundle(cut) => AtMostThreshold(l.aov, cut) && AtLeast(l.units, 5.0)
  }

  /** The column each list is ranked by, and how many rows it shows. */
  function RankColumn(r: Rule): Column
  {
    match r
    case NoBuyBox => Sessions
    case PrimeUpgrade(_) => Sales
    case HighTrafficLowConversion(_, _) => Sessions
    case Bundle(_) => Units
  }

  function Shown(r: Rule): nat
  {
    match r
    case NoBuyBox => 20
    case PrimeUpgrade(_) => 15
    case HighTrafficLowConversion(_, _) => 5
    case Bundle(_) => 15
  }

  /** The rules with the percentiles the script computes. */
  function OpportunityRules(ls: seq<Listing>): seq<Rule>
  {
    [NoBuyBox, PrimeUpgrade(Percentile(ls, Sales, 0.8)),
     HighTrafficLowConversion(Percentile(ls, Sessions, 0.9), Percentile(ls, Conversion, 0.1)),
     Bundle(Percentile(ls, Aov, 0.3))]
  }

  /** The rows a rule selects, in file order. */
  function Opportunities(ls: seq<Listing>, r: Rule): (m: seq<Listing>)
    ensures forall l :: l in m <==> l in ls && Matches(l, r)
  {
    Filter(ls, (l: Listing) => Matches(l, r))
  }

  /** The ranked rows each panel shows (`nlargest`). */
  function TopOpportunities(ls: seq<Listing>, r: Rule): seq<Listing>
  {
    NLargest(Opportunities(ls, r), RankColumn(r), Shown(r))
  }

  /** Every rule demands a number in its ranking column, so a panel shows
    * min(limit, matches) rows, all matching, best first, and no matching row
    * left out ranks above one shown. */
  lemma TopOpportunitiesCorrect(ls: seq<Listing>, r: Rule)
    ensures var m := Opportunities(ls, r);
      var top := TopOpportunities(ls, r);
      var c := RankColumn(r);
      |top| == (if Shown(r) < |m| then Shown(r) else |m|)
      && (forall l :: l in top ==> l in ls && Matches(l, r) && Value(l, c).Some?)
      && (forall i, j :: 0 <= i < j < |top| ==>
            Value(top[i], c).Some? && Value(top[j], c).Some? && Value(top[j], c).value <= Value(top[i], c).value)
      && (forall x, y :: x in top && y in m && y !in top ==>
            Value(x, c).Some? && Value(y, c).Some? && Value(y, c).value <= Value(x, c).value)
  {
    var m := Opportunities(ls, r);
    var c := RankColumn(r);
    forall i | 0 <= i < |m| ensures Value(m[i], c).Some? {
      assert Matches(m[i], r);
    }
    WithValueAll(m, c);
    NLargestCorrect(m, c, Shown(r));
  }

  // ---------------------------------------------------------------- executive summary

  /** Line 284: total units over total sessions, as a percentage, unguarded. */
  function OverallConversion(ls: seq<Listing>): (q: Quotient)
    ensures q.Finite? <==> Total(ls, Sessions) != 0.0
    ensures q.Finite? ==> q.value == Total(ls, Units) / Total(ls, Sessions) * 100.0
  {
    var units, sessions := Total(ls, Units), Total(ls, Sessions);
    Percent(Divide(Some(units), Some(sessions)))
  }

  /** Line 285: total sales over total units, unguarded. */
  function OverallAov(ls: seq<Listing>): (q: Quotient)
    ensures q.Finite? <==> Total(ls, Units) != 0.0
    ensures q.Finite? ==> q.value == Total(ls, Sales) / Total(ls, Units)
  {
    var sales, units := Total(ls, Sales), Total(ls, Units);
    Divide(Some(sales), Some(units))
  }

  /** 5% of the given sessions converted at the given mean order value; NaN
    * times anything is NaN. */
  function TrafficValue(sessions: real, meanAov: Option<real>): (r: Option<real>)
    ensures r.None? <==> meanAov.None?
    ensures r.Some? && sessions >= 0.0 && meanAov.value >= 0.0 ==> r.value >= 0.0
    ensures r.Some? && sessions == 0.0 ==> r.value == 0.0
  {
    if meanAov.None? then None
    else
      var x, y := sessions * 0.05, meanAov.value;
      assert x >= 0.0 && y >= 0.0 ==> x * y >= 0.0 by {
        if x >= 0.0 && y >= 0.0 {
          MulNonNegative(x, y);
        }
      }
      Some(x * y)
  }

  /** Line 300: the sessions of the no-buy-box rows, times 5%, times the mean
    * order value of the whole frame (NaN when no row has one). */
  function BuyBoxPotential(ls: seq<Listing>): Option<real>
  {
    TrafficValue(Total(Opportunities(ls, NoBuyBox), Sessions), Average(ls, Aov))
  }

  /** The buy-box potential is NaN only when no row has an order value; with no
    * negative order value it is never negative, and it is zero when every row
    * holds the buy box. */
  lemma BuyBoxPotentialNonNegative(ls: seq<Listing>)
    requires forall i :: 0 <= i < |ls| && Value(ls[i], Aov).Some? ==> Value(ls[i], Aov).value >= 0.0
    ensures BuyBoxPotential(ls).None? <==> forall i :: 0 <= i < |ls| ==> Value(ls[i], Aov).None?
    ensures BuyBoxPotential(ls).Some? ==> BuyBoxPotential(ls).value >= 0.0
    ensures Opportunities(ls, NoBuyBox) == [] && BuyBoxPotential(ls).Some? ==> BuyBoxPotential(ls).value == 0.0
  {
    AverageFloor(ls, Aov, 0.0);
    NoBuyBoxSessions(ls);
  }

  /** The no-buy-box rows all have sessions, so their total is positive unless there are none. */
  lemma NoBuyBoxSessions(ls: seq<Listing>)
    ensures Total(Opportunities(ls, NoBuyBox), Sessions) >= 0.0
    ensures Opportunities(ls, NoBuyBox) == [] ==> Total(Opportunities(ls, NoBuyBox), Sessions) == 0.0
    ensures Opportunities(ls, NoBuyBox) != [] ==> Total(Opportunities(ls, NoBuyBox), Sessions) > 0.0
  {
    var m := Opportunities(ls, NoBuyBox);
    forall i | 0 <= i < |m| ensures Greater(Value(m[i], Sessions), 0.0) {
      assert Matches(m[i], NoBuyBox);
    }
    TotalAbove(m, Sessions, 0.0);
  }

  /** Line 306: non-Prime rows selling more than 100. */
  predicate NonPrimeSeller(l: Listing)
  {
    !l.prime && Greater(l.sales, 100.0)
  }

  function NonPrimeSellers(ls: seq<Listing>): (r: seq<Listing>)
    ensures forall l :: l in r <==> l in ls && NonPrimeSeller(l)
  {
    Filter(ls, NonPrimeSeller)
  }

  /** Line 307: a 15% lift on their sales. */
  function PrimePotential(ls: seq<Listing>): real
  {
    Total(NonPrimeSellers(ls), Sales) * 0.15
  }

  /** Every row counted sells more than 100, so the lift exceeds 15 per row. */
  lemma PrimePotentialBound(ls: seq<Listing>)
    ensures PrimePotential(ls) >= 15.0 * |NonPrimeSellers(ls)| as real
    ensures NonPrimeSellers(ls) != [] ==> PrimePotential(ls) > 15.0 * |NonPrimeSellers(ls)| as real
  {
    var m := NonPrimeSellers(ls);
    forall i | 0 <= i < |m| ensures Greater(Value(m[i], Sales), 100.0) {
      assert NonPrimeSeller(m[i]);
    }
    TotalAbove(m, Sales, 100.0);
  }
}
