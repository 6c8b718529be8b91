/** simple_performance_export.py: the same cleaning as the enhanced traffic
  * analysis, the four performance categories at the 70th percentile, one
  * sorted export per category of interest, a four-line summary and the
  * Problem Children worth a conversion uplift. */
module SimpleExport {
  import opened Common
  import opened Cells
  import opened EnhancedTraffic

  /** Lines 32-51 (categorize_products): the matrix of the enhanced analysis at 70. */
  function Categorized(ps: seq<Product>): (cats: seq<Category>)
    ensures |cats| == |ps|
    ensures forall i :: 0 <= i < |ps| ==>
      cats[i] == Categorize(ps[i], Quantile(SessionsOf(ps), 0.7), Quantile(ConversionsOf(ps), 0.7))
  {
    TrafficConversionMatrix(ps, 70.0).categories
  }

  /** Product p stands in the frame with category c. */
  predicate ListedAs(ps: seq<Product>, cats: seq<Category>, c: Category, p: Product)
    requires |cats| == |ps|
  {
    exists i :: 0 <= i < |ps| && ps[i] == p && cats[i] == c
  }

  /** `df[df['category'] == c]`: the products of one category, in order. */
  function Members(ps: seq<Product>, cats: seq<Category>, c: Category): (r: seq<Product>)
    requires |cats| == |ps|
    ensures |r| <= |ps|
    ensures forall k :: 0 <= k < |r| ==> ListedAs(ps, cats, c, r[k])
    ensures forall i :: 0 <= i < |ps| && cats[i] == c ==> ps[i] in r
  {
    if ps == [] then []
    else
      var n := |ps| - 1;
      var front := Members(ps[..n], cats[..n], c);
      assert forall i :: 0 <= i < n ==> ps[..n][i] == ps[i] && cats[..n][i] == cats[i];
      MembersLift(ps, cats, c, n, front);
      if cats[n] == c then
        assert ListedAs(ps, cats, c, ps[n]);
        front + [ps[n]]
      else front
  }

  /** A member of a prefix of the frame is a member of the frame. */
  lemma MembersLift(ps: seq<Product>, cats: seq<Category>, c: Category, n: nat, front: seq<Product>)
    requires |cats| == |ps| && n <= |ps|
    requires forall k :: 0 <= k < |front| ==> ListedAs(ps[..n], cats[..n], c, front[k])
    ensures forall k :: 0 <= k < |front| ==> ListedAs(ps, cats, c, front[k])
  {
    forall k | 0 <= k < |front|
      ensures ListedAs(ps, cats, c, front[k])
    {
      var i :| 0 <= i < n && ps[..n][i] == front[k] && cats[..n][i] == c;
      assert ps[i] == front[k] && cats[i] == c;
    }
  }

  /** Every product is in exactly one category: the four counts add up. */
  lemma {:induction false} MembersPartition(ps: seq<Product>, cats: seq<Category>)
    requires |cats| == |ps|
    ensures |Members(ps, cats, Star)| + |Members(ps, cats, ProblemChild)|
            + |Members(ps, cats, HiddenGem)| + |Members(ps, cats, Dog)| == |ps|
  {
    if ps != [] {
      var n := |ps| - 1;
      MembersPartition(ps[..n], cats[..n]);
    }
  }

  // ---------------------------------------------------------------- exports

  /** sort_values('Conversion_%', ascending=False). */
  function ConversionKey(p: Product): Key
  {
    Key(p.conversion, 0.0)
  }

  /** sort_values('Sessions', ascending=False). */
  function SessionsKey(p: Product): Key
  {
    Key(p.sessions, 0.0)
  }

  /** The three exported lists create_simple_exports returns. */
  datatype Exports = Exports(stars: seq<Product>, problems: seq<Product>, gems: seq<Product>)

  /** Lines 53-105: Stars and Hidden Gems by falling conversion, Problem
    * Children by falling sessions. */
  function SimpleExports(ps: seq<Product>, cats: seq<Category>): Exports
    requires |cats| == |ps|
  {
    Exports(SortDesc(Members(ps, cats, Star), ConversionKey),
            SortDesc(Members(ps, cats, ProblemChild), SessionsKey),
            SortDesc(Members(ps, cats, HiddenGem), ConversionKey))
  }

  /** A sorted export holds exactly the members of its category, as often as
    * the frame does. */
  lemma SortedExport(ms: seq<Product>, key: Product -> Key)
    ensures SortedDesc(SortDesc(ms, key), key) && multiset(SortDesc(ms, key)) == multiset(ms)
    ensures forall p :: p in SortDesc(ms, key) <==> p in ms
  {
    SortDescCorrect(ms, key);
    forall p ensures p in SortDesc(ms, key) <==> p in ms {
      assert p in SortDesc(ms, key) <==> p in multiset(SortDesc(ms, key));
      assert p in ms <==> p in multiset(ms);
    }
  }

  lemma ExportsCorrect(ps: seq<Product>, cats: seq<Category>)
    requires |cats| == |ps|
    ensures var e := SimpleExports(ps, cats);
      SortedDesc(e.stars, ConversionKey) && multiset(e.stars) == multiset(Members(ps, cats, Star))
      && SortedDesc(e.problems, SessionsKey) && multiset(e.problems) == multiset(Members(ps, cats, ProblemChild))
      && SortedDesc(e.gems, ConversionKey) && multiset(e.gems) == multiset(Members(ps, cats, HiddenGem))
  {
    SortedExport(Members(ps, cats, Star), ConversionKey);
    SortedExport(Members(ps, cats, ProblemChild), SessionsKey);
    SortedExport(Members(ps, cats, HiddenGem), ConversionKey);
  }

  // ---------------------------------------------------------------- summary

  /** One line of category_summary_overview.csv. */
  datatype SummaryLine = SummaryLine(category: Category, count: nat, totalSessions: int,
                                     avgSessions: Option<real>, totalUnits: int,
                                     avgConversion: Option<real>, totalRevenue: real,
                                     avgAov: Option<real>)

  /** The four categories in the order the summary lists them. */
  const SummaryOrder: seq<Category> := [Star, ProblemChild, HiddenGem, Dog]

  function UnitsOf(ps: seq<Product>): (r: seq<real>)
    ensures |r| == |ps| && forall i :: 0 <= i < |ps| ==> r[i] == ps[i].units
  {
    seq(|ps|, i requires 0 <= i < |ps| => ps[i].units)
  }

  function SalesOf(ps: seq<Product>): (r: seq<real>)
    ensures |r| == |ps| && forall i :: 0 <= i < |ps| ==> r[i] == ps[i].sales
  {
    seq(|ps|, i requires 0 <= i < |ps| => ps[i].sales)
  }

  function AovsOf(ps: seq<Product>): (r: seq<real>)
    ensures |r| == |ps| && forall i :: 0 <= i < |ps| ==> r[i] == ps[i].aov
  {
    seq(|ps|, i requires 0 <= i < |ps| => ps[i].aov)
  }

  /** Series.mean() of a column without NaN, rounded; an empty category gives NaN. */
  function RoundedMean(xs: seq<real>, digits: nat): (r: Option<real>)
    ensures r.None? <==> xs == []
  {
    if xs == [] then None else Some(RoundTo(Sum(xs) / |xs| as real, digits))
  }

  /** Lines 114-125: the figures of one category. */
  function SummaryOf(members: seq<Product>, c: Category): (line: SummaryLine)
    ensures line.category == c && line.count == |members|
    ensures line.totalSessions == Truncate(Sum(SessionsOf(members)))
    ensures line.totalRevenue == RoundTo(Sum(SalesOf(members)), 2)
    ensures members == [] <==> line.avgSessions.None? && line.avgConversion.None? && line.avgAov.None?
  {
    SummaryLine(c, |members|, Truncate(Sum(SessionsOf(members))), RoundedMean(SessionsOf(members), 0),
                Truncate(Sum(UnitsOf(members))), RoundedMean(ConversionsOf(members), 1),
                RoundTo(Sum(SalesOf(members)), 2), RoundedMean(AovsOf(members), 2))
  }

  /** Lines 107-131 (create_summary_overview): one appended line per category,
    * empty categories included, in the fixed order. */
  method CreateSummaryOverview(ps: seq<Product>, cats: seq<Category>) returns (summary: seq<SummaryLine>)
    requires |cats| == |ps|
    ensures |summary| == |SummaryOrder|
    ensures forall k :: 0 <= k < |SummaryOrder| ==>
      summary[k] == SummaryOf(Members(ps, cats, SummaryOrder[k]), SummaryOrder[k])
  {
    summary := [];
    for k := 0 to |SummaryOrder|
      invariant |summary| == k
      invariant forall j :: 0 <= j < k ==>
        summary[j] == SummaryOf(Members(ps, cats, SummaryOrder[j]), SummaryOrder[j])
    {
      var category := SummaryOrder[k];
      summary := summary + [SummaryOf(Members(ps, cats, category), category)];
    }
  }

  /** The four summary lines count every product exactly once. */
  lemma SummaryCountsAddUp(ps: seq<Product>, cats: seq<Category>)
    requires |cats| == |ps|
    ensures SummaryOf(Members(ps, cats, Star), Star).count
            + SummaryOf(Members(ps, cats, ProblemChild), ProblemChild).count
            + SummaryOf(Members(ps, cats, HiddenGem), HiddenGem).count
            + SummaryOf(Members(ps, cats, Dog), Dog).count == |ps|
  {
    MembersPartition(ps, cats);
  }

  // ---------------------------------------------------------------- opportunities

  /** A Problem Child with its revenue uplift at the Stars' median conversion;
    * NaN (None) when there are no Stars. */
  datatype Uplift = Uplift(product: Product, potentialUnits: Option<real>, revenue: Option<real>)

  /** Lines 149-153: round(sessions * target / 100) units, and the extra units
    * times the order value, to 2 decimals. */
  function UpliftOf(p: Product, target: Option<real>): (u: Uplift)
    ensures u.product == p
    ensures u.potentialUnits.Some? <==> target.Some?
    ensures u.revenue.Some? <==> target.Some?
  {
    if target.None? then Uplift(p, None, None)
    else
      var units := RoundTo(p.sessions * target.value / 100.0, 0);
      Uplift(p, Some(units), Some(RoundTo((units - p.units) * p.aov, 2)))
  }

  /** sort_values('Revenue_Opportunity_£', ascending=False): NaN last. */
  function UpliftKey(u: Uplift): Key
  {
    if u.revenue.Some? then Key(1.0, u.revenue.value) else Key(0.0, 0.0)
  }

  /** Lines 138-141: Problem Children with at least 1000 sessions. */
  function HighTrafficProblems(ps: seq<Product>, cats: seq<Category>): (r: seq<Product>)
    requires |cats| == |ps|
    ensures forall p :: p in r <==> p in Members(ps, cats, ProblemChild) && p.sessions >= 1000.0
  {
    Filter(Members(ps, cats, ProblemChild), (p: Product) => p.sessions >= 1000.0)
  }

  function Uplifts(cs: seq<Product>, target: Option<real>): (r: seq<Uplift>)
    ensures |r| == |cs| && forall i :: 0 <= i < |cs| ==> r[i] == UpliftOf(cs[i], target)
  {
    seq(|cs|, i requires 0 <= i < |cs| => UpliftOf(cs[i], target))
  }

  /** Lines 133-171 (create_top_opportunities_csv); empty when no Problem Child
    * has 1000 sessions. */
  function TopOpportunities(ps: seq<Product>, cats: seq<Category>): seq<Uplift>
    requires |cats| == |ps|
  {
    var cs := HighTrafficProblems(ps, cats);
    if cs == [] then []
    else SortDesc(Uplifts(cs, Median(ConversionsOf(Members(ps, cats, Star)))), UpliftKey)
  }

  /** The opportunities are exactly the high-traffic Problem Children, each at
    * the Stars' median, by falling uplift with NaN last; all uplifts are
    * numbers as soon as there is one Star. */
  lemma TopOpportunitiesCorrect(ps: seq<Product>, cats: seq<Category>)
    requires |cats| == |ps|
    ensures var r := TopOpportunities(ps, cats);
      var target := Median(ConversionsOf(Members(ps, cats, Star)));
      SortedDesc(r, UpliftKey)
      && (forall u :: u in r <==> u.product in HighTrafficProblems(ps, cats) && u == UpliftOf(u.product, target))
      && (Members(ps, cats, Star) != [] ==> forall u :: u in r ==> u.revenue.Some?)
  {
    var cs := HighTrafficProblems(ps, cats);
    if cs != [] {
      var target := Median(ConversionsOf(Members(ps, cats, Star)));
      var us := Uplifts(cs, target);
      SortDescCorrect(us, UpliftKey);
      var r := SortDesc(us, UpliftKey);
      forall u ensures u in r <==> u in us {
        assert u in r <==> u in multiset(r);
        assert u in us <==> u in multiset(us);
      }
      forall u ensures u in us <==> u.product in cs && u == UpliftOf(u.product, target) {
        if u.product in cs && u == UpliftOf(u.product, target) {
          var i :| 0 <= i < |cs| && cs[i] == u.product;
          assert us[i] == u;
        }
      }
    }
  }

  /** Every opportunity is a high-traffic product: a Problem Child reaches the
    * traffic threshold and has at least 1000 sessions. */
  lemma OpportunitiesAreHighTraffic(ps: seq<Product>)
    ensures var cats := Categorized(ps);
      forall p :: p in HighTrafficProblems(ps, cats) ==>
        p.sessions >= 1000.0 && High(p.sessions, Quantile(SessionsOf(ps), 0.7))
        && !High(p.conversion, Quantile(ConversionsOf(ps), 0.7))
  {
    var cats := Categorized(ps);
    forall p | p in HighTrafficProblems(ps, cats)
      ensures High(p.sessions, Quantile(SessionsOf(ps), 0.7)) && !High(p.conversion, Quantile(ConversionsOf(ps), 0.7))
    {
      var k :| 0 <= k < |Members(ps, cats, ProblemChild)| && Members(ps, cats, ProblemChild)[k] == p;
      var i :| 0 <= i < |ps| && ps[i] == p && cats[i] == ProblemChild;
    }
  }
}
