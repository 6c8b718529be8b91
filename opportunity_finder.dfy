/** opportunity_finder.py: the listing searches (buy box, pricing, bundles,
  * content, Prime), the category searches over group statistics, and the
  * total opportunity value with each part's share. */
module OpportunityFinder {
  import opened Common
  import opened Cells
  import opened ReportRows

  // ---------------------------------------------------------------- listing searches

  /** The row filters of lines 21-114, with the percentiles they compare against. */
  datatype Search =
    | NoBuyBoxTraffic
    | PartialBuyBox
    | PricingIssue(sessionsCut: Option<real>, conversionCut: Option<real>)
    | BundleUpsell(aovCut: Option<real>)
    | ContentIssue
    | PrimeCandidate(salesCut: Option<real>, conversionCut: Option<real>)

  predicate Matches(l: Listing, s: Search)
  {
    match s
    case NoBuyBoxTraffic => EqualTo(l.buyBox, 0.0) && AtLeast(l.sessions, 5.0) && Greater(l.sales, 0.0)
    case PartialBuyBox => Greater(l.buyBox, 0.0) && Less(l.buyBox, 80.0) && AtLeast(l.sessions, 10.0)
    case PricingIssue(sc, cc) =>
      AtLeastThreshold(l.sessions, sc) && AtMostThreshold(l.conversion, cc) && AtLeast(l.buyBox, 50.0)
    case BundleUpsell(cut) => AtMostThreshold(l.aov, cut) && AtLeast(l.units, 2.0) && AtLeast(l.conversion, 20.0)
    case ContentIssue => AtLeast(l.pageViews, 10.0) && Less(l.sessions, l.pageViews.value * 0.7)
    case PrimeCandidate(sc, cc) => !l.prime && AtLeastThreshold(l.sales, sc) && AtLeastThreshold(l.conversion, cc)
  }

  /** The column each search is sorted by, descending. */
  function SortColumn(s: Search): Column
  {
    match s
    case NoBuyBoxTraffic => Sessions
    case PartialBuyBox => Sessions
    case PricingIssue(_, _) => Sessions
    case BundleUpsell(_) => Units
    case ContentIssue => PageViews
    case PrimeCandidate(_, _) => Sales
  }

  /** The searches with the percentiles the script computes. */
  function Searches(ls: seq<Listing>): seq<Search>
  {
    [NoBuyBoxTraffic, PartialBuyBox,
     PricingIssue(Percentile(ls, Sessions, 0.6), Percentile(ls, Conversion, 0.4)),
     BundleUpsell(Percentile(ls, Aov, 0.3)), ContentIssue,
     PrimeCandidate(Percentile(ls, Sales, 0.6), Percentile(ls, Conversion, 0.5))]
  }

  /** The mask of one search. */
  function MatchTest(s: Search): Listing -> bool
  {
    (l: Listing) => Matches(l, s)
  }

  /** A row a search finds has a value in the column it is sorted by. */
  lemma MatchedHasValue(l: Listing, s: Search)
    requires Matches(l, s)
    ensures Value(l, SortColumn(s)).Some?
  {
  }

  /** `df[mask].sort_values(column, ascending=False)`. */
  function Found(ls: seq<Listing>, s: Search): seq<Listing>
  {
    SortedBy(Filter(ls, MatchTest(s)), SortColumn(s))
  }

  /** The ten rows printed for a search. */
  function Listed(ls: seq<Listing>, s: Search): seq<Listing>
  {
    Head(Found(ls, s), 10)
  }

  /** A search finds every matching row, once per occurrence, and nothing else;
    * every row found has a value in the sort column, and larger values come
    * first; at most ten are printed. */
  lemma FoundCorrect(ls: seq<Listing>, s: Search)
    ensures var m := Filter(ls, MatchTest(s));
      var f := Found(ls, s);
      var c := SortColumn(s);
      multiset(f) == multiset(m)
      && (forall l :: l in f <==> l in ls && Matches(l, s))
      && (forall i :: 0 <= i < |f| ==> Value(f[i], c).Some?)
      && (forall i, j :: 0 <= i < j < |f| ==> Value(f[j], c).value <= Value(f[i], c).value)
      && |Listed(ls, s)| == (if 10 < |m| then 10 else |m|)
  {
    forall l | MatchTest(s)(l) ensures Value(l, SortColumn(s)).Some? {
      MatchedHasValue(l, s);
    }
    SortedFilterCorrect(ls, MatchTest(s), SortColumn(s));
  }

  /** Sorting the rows a mask keeps, when each kept row has a value in the sort column. */
  lemma SortedFilterCorrect(ls: seq<Listing>, p: Listing -> bool, c: Column)
    requires forall l :: p(l) ==> Value(l, c).Some?
    ensures var m := Filter(ls, p);
      var f := SortedBy(m, c);
      multiset(f) == multiset(m)
      && (forall l :: l in f <==> l in ls && p(l))
      && (forall i :: 0 <= i < |f| ==> Value(f[i], c).Some?)
      && (forall i, j :: 0 <= i < j < |f| ==> Value(f[j], c).value <= Value(f[i], c).value)
      && |Head(f, 10)| == (if 10 < |m| then 10 else |m|)
  {
    var m := Filter(ls, p);
    var f := SortedBy(m, c);
    SortedByCorrect(m, c);
    SameElements(f, m);
    forall i | 0 <= i < |f| ensures Value(f[i], c).Some? {
      assert f[i] in m;
    }
  }

  /** Two sequences with the same multiset have the same elements and length. */
  lemma SameElements<T>(f: seq<T>, m: seq<T>)
    requires multiset(f) == multiset(m)
    ensures |f| == |m|
    ensures forall x :: x in f <==> x in m
  {
    assert |f| == |multiset(f)| == |multiset(m)| == |m|;
    forall x ensures x in f <==> x in m {
      assert x in f <==> x in multiset(f);
      assert x in m <==> x in multiset(m);
    }
  }

  // ---------------------------------------------------------------- per-row estimates

  /** Line 29: ten percent of the sessions; a listed row has at least five. */
  function PotentialUnits(l: Listing): (r: real)
    requires Matches(l, NoBuyBoxTraffic)
    ensures r >= 0.5
  {
    l.sessions.value * 0.1
  }

  /** Line 42: the buy-box gap to 80%, converted at 5% of sessions; always
    * positive for a listed row and never more than 4% of its sessions. */
  function ImprovementPotential(l: Listing): (r: real)
    requires Matches(l, PartialBuyBox)
    ensures 0.0 < r <= l.sessions.value * 0.04
  {
    var gap, s := (80.0 - l.buyBox.value) / 100.0, l.sessions.value;
    assert 0.0 < gap < 0.8;
    assert gap * s > 0.0 by {
      MulNonNegative(gap, s);
      assert gap * s >= gap * 10.0;
    }
    assert gap * s <= 0.8 * s;
    gap * s * 0.05
  }

  /** Lines 73-74: a 30% rise of the order value over the units sold. */
  function BundleLift(aov: real, units: real): (r: real)
    ensures r == 0.3 * aov * units
    ensures aov >= 0.0 && units >= 2.0 ==> r >= 0.6 * aov
  {
    var raised := aov * 1.3;
    assert raised - aov == 0.3 * aov;
    assert aov >= 0.0 && units >= 2.0 ==> 0.3 * aov * units >= 0.3 * aov * 2.0 by {
      if aov >= 0.0 && units >= 2.0 {
        MulNonNegative(0.3 * aov, units - 2.0);
      }
    }
    (raised - aov) * units
  }

  /** Line 88: sessions per hundred page views; below 70 for every row the
    * content search lists. */
  function PageViewToSessionRate(l: Listing): (r: real)
    requires Matches(l, ContentIssue)
    ensures r < 70.0
    ensures l.sessions.value >= 0.0 ==> r >= 0.0
  {
    var s, pv := l.sessions.value, l.pageViews.value;
    assert s / pv < 0.7 by {
      assert s < pv * 0.7;
      assert (s / pv) * pv == s;
    }
    s / pv * 100.0
  }

  /** Lines 112-114: a 15% conversion lift, in units and in revenue. */
  datatype PrimeImpact = PrimeImpact(additionalUnits: Option<real>, revenue: Option<real>)

  function PrimeLift(l: Listing): (r: PrimeImpact)
    requires l.conversion.Some?
    ensures r.additionalUnits.Some? <==> l.sessions.Some?
    ensures l.sessions.Some? ==>
      r.additionalUnits.value == 0.15 * l.conversion.value / 100.0 * l.sessions.value
    ensures r.revenue.Some? <==> l.sessions.Some? && l.aov.Some?
  {
    var c := l.conversion.value;
    var lifted := c * 1.15;
    assert lifted - c == 0.15 * c;
    if l.sessions.None? then PrimeImpact(None, None)
    else
      var units := (lifted - c) / 100.0 * l.sessions.value;
      PrimeImpact(Some(units), if l.aov.Some? then Some(units * l.aov.value) else None)
  }

  // ---------------------------------------------------------------- category searches

  /** The aggregates of lines 123-128, each rounded to two decimals. */
  datatype CategoryStats = CategoryStats(name: string, salesSum: real, salesCount: nat,
                                         salesMean: Option<real>, conversionMean: Option<real>,
                                         buyBoxMean: Option<real>, primeShare: real)

  /** The mean of is_prime over a group: the share of its rows that are Prime. */
  function PrimeShare(rows: seq<Listing>): (r: real)
    requires rows != []
    ensures 0.0 <= r <= 1.0
  {
    var k := Count(rows, (l: Listing) => l.prime);
    var n := |rows|;
    assert k <= n;
    DivideBetween(k as real, n as real, 0.0, 1.0);
    k as real / n as real
  }

  function StatsOf(ls: seq<Listing>, c: string): CategoryStats
    requires c in CategoryNames(ls)
  {
    var rows := InCategory(ls, c);
    var i :| 0 <= i < |ls| && ls[i].category == Some(c);
    assert ls[i] in rows;
    CategoryStats(c, RoundTo(Total(rows, Sales), 2), |WithValue(rows, Sales)|,
                  Rounded(Average(rows, Sales)), Rounded(Average(rows, Conversion)),
                  Rounded(Average(rows, BuyBox)), RoundTo(PrimeShare(rows), 2))
  }

  /** One line of statistics per category. */
  function CategoryTable(ls: seq<Listing>): (r: seq<CategoryStats>)
    ensures |r| == |CategoryNames(ls)|
    ensures forall k :: 0 <= k < |r| ==> r[k] == StatsOf(ls, CategoryNames(ls)[k])
  {
    var names := CategoryNames(ls);
    seq(|names|, k requires 0 <= k < |names| => StatsOf(ls, names[k]))
  }

  /** Lines 131-134 and 144-147: the rounded share and mean against their
    * limits, and at least two rows with a sales figure. */
  predicate LowPrime(s: CategoryStats)
  {
    s.primeShare < 0.5 && s.salesCount >= 2
  }

  predicate LowBuyBox(s: CategoryStats)
  {
    s.buyBoxMean.Some? && s.buyBoxMean.value < 70.0 && s.salesCount >= 2
  }

  function SalesSumKey(s: CategoryStats): Key
  {
    Key(s.salesSum, 0.0)
  }

  /** The selected categories, by falling summed sales. */
  function CategorySearch(ls: seq<Listing>, p: CategoryStats -> bool): seq<CategoryStats>
  {
    SortDesc(Filter(CategoryTable(ls), p), SalesSumKey)
  }

  /** A category search lists exactly the categories whose statistics pass the
    * test, each once, by falling summed sales. */
  lemma CategorySearchCorrect(ls: seq<Listing>, p: CategoryStats -> bool)
    ensures var r := CategorySearch(ls, p);
      SortedDesc(r, SalesSumKey)
      && |r| <= |CategoryNames(ls)|
      && (forall c :: c in CategoryNames(ls) && p(StatsOf(ls, c)) ==> StatsOf(ls, c) in r)
      && (forall s :: s in r ==> s.name in CategoryNames(ls) && s == StatsOf(ls, s.name) && p(s))
  {
    var t := CategoryTable(ls);
    var names := CategoryNames(ls);
    var m := Filter(t, p);
    var r := CategorySearch(ls, p);
    SortDescCorrect(m, SalesSumKey);
    forall c | c in names && p(StatsOf(ls, c)) ensures StatsOf(ls, c) in r {
      var k :| 0 <= k < |names| && names[k] == c;
      assert t[k] == StatsOf(ls, c);
      assert StatsOf(ls, c) in multiset(m);
    }
    forall s | s in r ensures s.name in names && s == StatsOf(ls, s.name) && p(s) {
      assert s in multiset(m);
      var k :| 0 <= k < |t| && t[k] == s;
      assert s == StatsOf(ls, names[k]);
    }
  }

  // ---------------------------------------------------------------- opportunity value

  /** The rows and per-row values of lines 164-181. */
  predicate BuyBoxWinRow(l: Listing)
  {
    EqualTo(l.buyBox, 0.0) && AtLeast(l.sessions, 5.0)
  }

  predicate PrimeUpgradeRow(l: Listing, cut: Option<real>)
  {
    !l.prime && AtLeastThreshold(l.sales, cut)
  }

  predicate BundleRow(l: Listing, cut: Option<real>)
  {
    AtMostThreshold(l.aov, cut) && AtLeast(l.units, 2.0)
  }

  function PrimeUpgradeTest(cut: Option<real>): Listing -> bool
  {
    (l: Listing) => PrimeUpgradeRow(l, cut)
  }

  function BundleTest(cut: Option<real>): Listing -> bool
  {
    (l: Listing) => BundleRow(l, cut)
  }

  predicate ContentRow(l: Listing)
  {
    Matches(l, ContentIssue)
  }

  /** NaN in either factor gives NaN, which the later sum skips. */
  function Product(x: Option<real>, k: real, y: Option<real>): Option<real>
  {
    if x.Some? && y.Some? then Some(x.value * k * y.value) else None
  }

  function Scaled(x: Option<real>, k: real): Option<real>
  {
    if x.Some? then Some(x.value * k) else None
  }

  /** `(rows[a] * k * rows[b]).sum()` and `(rows[a] * k).sum()`. */
  function ProductSum(rows: seq<Listing>, a: Column, k: real, b: Column): real
  {
    SumPresent(seq(|rows|, i requires 0 <= i < |rows| => Product(Value(rows[i], a), k, Value(rows[i], b))))
  }

  function ScaledSum(rows: seq<Listing>, a: Column, k: real): real
  {
    SumPresent(seq(|rows|, i requires 0 <= i < |rows| => Scaled(Value(rows[i], a), k)))
  }

  /** No row has a negative number in any column. */
  predicate NoNegatives(l: Listing)
  {
    forall c: Column :: Value(l, c).Some? ==> Value(l, c).value >= 0.0
  }

  lemma ProductSumNonNegative(rows: seq<Listing>, a: Column, k: real, b: Column)
    requires k >= 0.0 && forall i :: 0 <= i < |rows| ==> NoNegatives(rows[i])
    ensures ProductSum(rows, a, k, b) >= 0.0
  {
    var xs := seq(|rows|, i requires 0 <= i < |rows| => Product(Value(rows[i], a), k, Value(rows[i], b)));
    forall i | 0 <= i < |xs| && xs[i].Some? ensures xs[i].value >= 0.0 {
      var x, y := Value(rows[i], a).value, Value(rows[i], b).value;
      assert NoNegatives(rows[i]);
      MulNonNegative(x, k);
      MulNonNegative(x * k, y);
    }
    SumPresentNonNegative(xs);
  }

  lemma ScaledSumNonNegative(rows: seq<Listing>, a: Column, k: real)
    requires k >= 0.0 && forall i :: 0 <= i < |rows| ==> NoNegatives(rows[i])
    ensures ScaledSum(rows, a, k) >= 0.0
  {
    var xs := seq(|rows|, i requires 0 <= i < |rows| => Scaled(Value(rows[i], a), k));
    forall i | 0 <= i < |xs| && xs[i].Some? ensures xs[i].value >= 0.0 {
      assert NoNegatives(rows[i]);
      MulNonNegative(Value(rows[i], a).value, k);
    }
    SumPresentNonNegative(xs);
  }

  /** Lines 164-166: ten percent of the sessions of each row without the buy
    * box, at its order value. */
  function BuyBoxWins(ls: seq<Listing>): real
  {
    ProductSum(Filter(ls, BuyBoxWinRow), Sessions, 0.1, Aov)
  }

  /** Lines 169-171: fifteen percent of the sales of non-Prime rows at or above the median. */
  function PrimeUpgrades(ls: seq<Listing>): real
  {
    ScaledSum(Filter(ls, PrimeUpgradeTest(Percentile(ls, Sales, 0.5))), Sales, 0.15)
  }

  /** Lines 174-176: thirty percent of the sales of low-AOV rows selling two or more. */
  function BundleOpportunity(ls: seq<Listing>): real
  {
    ScaledSum(Filter(ls, BundleTest(Percentile(ls, Aov, 0.3))), Sales, 0.3)
  }

  /** Lines 179-181: a fifth of the page views of content-issue rows, at their order value. */
  function ContentOptimization(ls: seq<Listing>): real
  {
    ProductSum(Filter(ls, ContentRow), PageViews, 0.2, Aov)
  }

  /** Buy Box Wins, Prime Upgrades, Bundle/Upsell and Content Optimization, in
    * the order the dictionary is filled. */
  function OpportunityValues(ls: seq<Listing>): seq<real>
  {
    [BuyBoxWins(ls), PrimeUpgrades(ls), BundleOpportunity(ls), ContentOptimization(ls)]
  }

  /** Without negative numbers in the frame, no part is negative. */
  lemma OpportunityValuesNonNegative(ls: seq<Listing>)
    requires forall i :: 0 <= i < |ls| ==> NoNegatives(ls[i])
    ensures BuyBoxWins(ls) >= 0.0 && PrimeUpgrades(ls) >= 0.0
    ensures BundleOpportunity(ls) >= 0.0 && ContentOptimization(ls) >= 0.0
  {
    ProductPartNonNegative(ls, BuyBoxWinRow, Sessions, 0.1, Aov);
    ScaledPartNonNegative(ls, PrimeUpgradeTest(Percentile(ls, Sales, 0.5)), Sales, 0.15);
    ScaledPartNonNegative(ls, BundleTest(Percentile(ls, Aov, 0.3)), Sales, 0.3);
    ProductPartNonNegative(ls, ContentRow, PageViews, 0.2, Aov);
  }

  lemma ProductPartNonNegative(ls: seq<Listing>, p: Listing -> bool, a: Column, k: real, b: Column)
    requires k >= 0.0 && forall i :: 0 <= i < |ls| ==> NoNegatives(ls[i])
    ensures ProductSum(Filter(ls, p), a, k, b) >= 0.0
  {
    FilterNoNegatives(ls, p);
    ProductSumNonNegative(Filter(ls, p), a, k, b);
  }

  lemma ScaledPartNonNegative(ls: seq<Listing>, p: Listing -> bool, a: Column, k: real)
    requires k >= 0.0 && forall i :: 0 <= i < |ls| ==> NoNegatives(ls[i])
    ensures ScaledSum(Filter(ls, p), a, k) >= 0.0
  {
    FilterNoNegatives(ls, p);
    ScaledSumNonNegative(Filter(ls, p), a, k);
  }

  lemma FilterNoNegatives(ls: seq<Listing>, p: Listing -> bool)
    requires forall i :: 0 <= i < |ls| ==> NoNegatives(ls[i])
    ensures forall i :: 0 <= i < |Filter(ls, p)| ==> NoNegatives(Filter(ls, p)[i])
  {
    var m := Filter(ls, p);
    forall i | 0 <= i < |m| ensures NoNegatives(m[i]) {
      var j :| 0 <= j < |ls| && ls[j] == m[i];
    }
  }

  /** Line 187: a part's share of the total, 0 unless the total is positive. */
  function Share(value: real, total: real): real
  {
    if total > 0.0 then value / total * 100.0 else 0.0
  }

  /** Four parts' shares of their positive sum add up to 100. */
  lemma SharesAddUp(a: real, b: real, c: real, d: real)
    requires a + b + c + d > 0.0
    ensures var t := a + b + c + d;
      Share(a, t) + Share(b, t) + Share(c, t) + Share(d, t) == 100.0
  {
    var t := a + b + c + d;
    var k := 100.0 / t;
    assert a / t * 100.0 == a * k && b / t * 100.0 == b * k;
    assert c / t * 100.0 == c * k && d / t * 100.0 == d * k;
    assert a * k + b * k + c * k + d * k == t * k;
  }

  /** A share of parts that are none of them negative is a percentage. */
  lemma ShareBetween(value: real, total: real)
    requires 0.0 <= value <= total
    ensures 0.0 <= Share(value, total) <= 100.0
  {
    if total > 0.0 {
      DivideBetween(value, total, 0.0, 1.0);
    }
  }

  /** Lines 186-188: the loop over the parts that works out each share. */
  method PrintedShares(values: seq<real>, total: real) returns (shares: seq<real>)
    ensures |shares| == |values|
    ensures forall k :: 0 <= k < |values| ==> shares[k] == Share(values[k], total)
  {
    shares := [];
    for k := 0 to |values|
      invariant |shares| == k
      invariant forall j :: 0 <= j < k ==> shares[j] == Share(values[j], total)
    {
      shares := shares + [Share(values[k], total)];
    }
  }

  /** Lines 156-192: fill the four parts, total them, then print each share and
    * the uplift over current sales (an unguarded division). */
  method CalculateOpportunityValue(ls: seq<Listing>) returns (values: seq<real>, total: real,
                                                             shares: seq<real>, uplift: Quotient)
    ensures values == OpportunityValues(ls)
    ensures total == values[0] + values[1] + values[2] + values[3]
    ensures |shares| == 4 && forall k :: 0 <= k < 4 ==> shares[k] == Share(values[k], total)
    ensures total > 0.0 ==> shares[0] + shares[1] + shares[2] + shares[3] == 100.0
    ensures total <= 0.0 ==> forall k :: 0 <= k < 4 ==> shares[k] == 0.0
    ensures (forall i :: 0 <= i < |ls| ==> NoNegatives(ls[i])) ==>
      forall k :: 0 <= k < 4 ==> 0.0 <= shares[k] <= 100.0
    ensures uplift.Finite? <==> Total(ls, Sales) != 0.0
    ensures uplift.Finite? ==> uplift.value == total / Total(ls, Sales) * 100.0
  {
    values := OpportunityValues(ls);
    var sales := Total(ls, Sales);
    total, shares, uplift := Totals(values, sales);
    if forall i :: 0 <= i < |ls| ==> NoNegatives(ls[i]) {
      PartsNonNegative(ls);
    }
  }

  /** The same bound on the dictionary of the four parts. */
  lemma PartsNonNegative(ls: seq<Listing>)
    requires forall i :: 0 <= i < |ls| ==> NoNegatives(ls[i])
    ensures var v := OpportunityValues(ls);
      v[0] >= 0.0 && v[1] >= 0.0 && v[2] >= 0.0 && v[3] >= 0.0
  {
    OpportunityValuesNonNegative(ls);
  }

  /** The arithmetic of lines 183-192 on the four parts and the current sales. */
  method Totals(values: seq<real>, sales: real) returns (total: real, shares: seq<real>, uplift: Quotient)
    requires |values| == 4
    ensures total == values[0] + values[1] + values[2] + values[3]
    ensures |shares| == 4 && forall k :: 0 <= k < 4 ==> shares[k] == Share(values[k], total)
    ensures total > 0.0 ==> shares[0] + shares[1] + shares[2] + shares[3] == 100.0
    ensures total <= 0.0 ==> forall k :: 0 <= k < 4 ==> shares[k] == 0.0
    ensures values[0] >= 0.0 && values[1] >= 0.0 && values[2] >= 0.0 && values[3] >= 0.0 ==>
      forall k :: 0 <= k < 4 ==> 0.0 <= shares[k] <= 100.0
    ensures uplift.Finite? <==> sales != 0.0
    ensures uplift.Finite? ==> uplift.value == total / sales * 100.0
  {
    total := values[0] + values[1] + values[2] + values[3];
    shares := PrintedShares(values, total);
    if total > 0.0 {
      SharesAddUp(values[0], values[1], values[2], values[3]);
    }
    if values[0] >= 0.0 && values[1] >= 0.0 && values[2] >= 0.0 && values[3] >= 0.0 {
      forall k | 0 <= k < 4 ensures 0.0 <= shares[k] <= 100.0 {
        ShareBetween(values[k], total);
      }
    }
    uplift := Percent(Divide(Some(total), Some(sales)));
  }
}
