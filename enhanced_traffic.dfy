/** enhanced_traffic_conversion_analysis.py: the Business Report read with
  * strict float conversions, conversion rate and order value computed without
  * guards, rows whose ratio is NaN or infinite dropped, a 2x2 traffic and
  * conversion matrix at one percentile, and the list of high-traffic,
  * low-conversion products with the units and revenue they would add at the
  * 70th-percentile conversion rate. */
module EnhancedTraffic {
  import opened Common
  import opened Text
  import opened NumParse
  import opened Cells

  /** One Business Report row as read_csv leaves it: the columns the script reads. */
  datatype RawRow = RawRow(sku: string, title: string, sessions: Cell, units: Cell, sales: Cell)

  /** One cell of a column converted with `.astype(float)`: either the whole
    * conversion raises ValueError, or the cell becomes a float (NaN as None). */
  datatype Reading = Unreadable | Reading(value: Option<real>)

  // ---------------------------------------------------------------- cleaning

  /** Line 24: `.astype(str).str.replace(',', '').astype(float)`. NaN prints as
    * "nan" and reads back as NaN; a number prints without commas and reads back
    * as itself; a boolean prints as a word that float() refuses. */
  function SessionsReading(c: Cell): (r: Reading)
    ensures c.Str? ==> (r.Reading? <==> ParseFloat(RemoveChars(c.text, {','})).Some?)
    ensures c.Str? && r.Reading? ==> r.value == ParseFloat(RemoveChars(c.text, {','}))
    ensures c.Num? ==> r == Reading(Some(c.value))
  {
    match c
    case Missing => Reading(None)
    case Num(v) => Reading(Some(v))
    case Str(s) =>
      var x := ParseFloat(RemoveChars(s, {','}));
      if x.Some? then Reading(x) else Unreadable
    case Flag(_) => Unreadable
  }

  /** Line 25: `.astype(float)` with no cleaning: "1,234" is refused, a boolean
    * becomes 0 or 1. */
  function UnitsReading(c: Cell): (r: Reading)
    ensures c.Str? ==> (r.Reading? <==> ParseFloat(c.text).Some?)
    ensures c.Str? && r.Reading? ==> r.value == ParseFloat(c.text)
  {
    match c
    case Missing => Reading(None)
    case Num(v) => Reading(Some(v))
    case Str(s) =>
      var x := ParseFloat(s);
      if x.Some? then Reading(x) else Unreadable
    case Flag(b) => Reading(Some(if b then 1.0 else 0.0))
  }

  /** Line 26: `.str.replace('£', '').str.replace(',', '').astype(float)` on a
    * text column: a cell that is not text becomes NaN under `.str`. */
  function SalesReading(c: Cell): (r: Reading)
    ensures !c.Str? ==> r == Reading(None)
    ensures c.Str? ==> (r.Reading? <==> ParseFloat(RemoveChars(c.text, {'£', ','})).Some?)
  {
    match c
    case Str(s) =>
      var x := ParseFloat(RemoveChars(s, {'£', ','}));
      if x.Some? then Reading(x) else Unreadable
    case _ => Reading(None)
  }

  predicate SessionsReadable(raws: seq<RawRow>)
  {
    forall i :: 0 <= i < |raws| ==> SessionsReading(raws[i].sessions).Reading?
  }

  predicate UnitsReadable(raws: seq<RawRow>)
  {
    forall i :: 0 <= i < |raws| ==> UnitsReading(raws[i].units).Reading?
  }

  predicate SalesReadable(raws: seq<RawRow>)
  {
    forall i :: 0 <= i < |raws| ==> SalesReading(raws[i].sales).Reading?
  }

  /** `.str` is only available on a column of text: a non-empty sales column
    * without a single text cell is numeric and raises AttributeError. */
  predicate SalesHoldText(raws: seq<RawRow>)
  {
    raws == [] || exists i :: 0 <= i < |raws| && raws[i].sales.Str?
  }

  /** A row after cleaning: every value a finite float. */
  datatype Product = Product(sku: string, title: string, sessions: real, units: real,
                             sales: real, conversion: real, aov: real)

  /** Lines 29-34 for one row: units / sessions * 100 and sales / units, each
    * rounded to 2 decimals without a guard; the row survives only when both
    * are finite, that is when no value is NaN and neither divisor is zero. */
  function ProductOf(sku: string, title: string, sessions: Option<real>, units: Option<real>,
                     sales: Option<real>): (r: Option<Product>)
    ensures r.Some? <==> sessions.Some? && units.Some? && sales.Some?
                         && sessions.value != 0.0 && units.value != 0.0
    ensures r.Some? ==> r.value.sessions == sessions.value && r.value.units == units.value
                        && r.value.sales == sales.value
    ensures r.Some? ==> r.value.conversion == RoundTo(units.value / sessions.value * 100.0, 2)
                        && r.value.aov == RoundTo(sales.value / units.value, 2)
  {
    var conversion, aov := Divide(units, sessions), Divide(sales, units);
    if conversion.Finite? && aov.Finite? then
      Some(Product(sku, title, sessions.value, units.value, sales.value,
                   RoundTo(conversion.value * 100.0, 2), RoundTo(aov.value, 2)))
    else None
  }

  predicate RowReadable(raw: RawRow)
  {
    SessionsReading(raw.sessions).Reading? && UnitsReading(raw.units).Reading?
    && SalesReading(raw.sales).Reading?
  }

  function RowProduct(raw: RawRow): Option<Product>
    requires RowReadable(raw)
  {
    ProductOf(raw.sku, raw.title, SessionsReading(raw.sessions).value,
              UnitsReading(raw.units).value, SalesReading(raw.sales).value)
  }

  /** The product of every row, None for a dropped one. */
  function RowProducts(raws: seq<RawRow>): (r: seq<Option<Product>>)
    requires forall i :: 0 <= i < |raws| ==> RowReadable(raws[i])
    ensures |r| == |raws| && forall i :: 0 <= i < |raws| ==> r[i] == RowProduct(raws[i])
  {
    seq(|raws|, i requires 0 <= i < |raws| => RowProduct(raws[i]))
  }

  /** The rows that were not dropped, in order. */
  function Survivors(xs: seq<Option<Product>>): (r: seq<Product>)
    ensures |r| <= |xs|
    ensures forall p :: p in r <==> Some(p) in xs
    ensures forall p :: multiset(r)[p] == multiset(xs)[Some(p)]
  {
    if xs == [] then []
    else
      var front := Survivors(xs[..|xs| - 1]);
      var last := xs[|xs| - 1];
      assert xs == xs[..|xs| - 1] + [last];
      assert forall x :: x in xs <==> x in xs[..|xs| - 1] || x == last;
      if last.Some? then front + [last.value] else front
  }

  /** Survivors keeps the order of the rows: it distributes over concatenation,
    * so a row's product comes after those of every earlier row. */
  lemma {:induction false} SurvivorsAppend(xs: seq<Option<Product>>, ys: seq<Option<Product>>)
    ensures Survivors(xs + ys) == Survivors(xs) + Survivors(ys)
    decreases |ys|
  {
    if ys != [] {
      var front := ys[..|ys| - 1];
      assert (xs + ys)[..|xs + ys| - 1] == xs + front;
      assert (xs + ys)[|xs + ys| - 1] == ys[|ys| - 1];
      SurvivorsAppend(xs, front);
    } else {
      assert xs + ys == xs;
    }
  }

  /** Lines 33-34: the rows that keep a finite conversion and order value, in
    * order; a product is kept exactly when some row yields it. */
  function Kept(raws: seq<RawRow>): (r: seq<Product>)
    requires forall i :: 0 <= i < |raws| ==> RowReadable(raws[i])
    ensures |r| <= |raws|
    ensures forall p :: p in r <==> exists i :: 0 <= i < |raws| && RowProduct(raws[i]) == Some(p)
  {
    var xs := RowProducts(raws);
    assert forall p :: Some(p) in xs <==> exists i :: 0 <= i < |raws| && RowProduct(raws[i]) == Some(p) by {
      forall p ensures Some(p) in xs <==> exists i :: 0 <= i < |raws| && RowProduct(raws[i]) == Some(p) {
        if Some(p) in xs {
          var i :| 0 <= i < |xs| && xs[i] == Some(p);
          assert RowProduct(raws[i]) == Some(p);
        }
      }
    }
    Survivors(xs)
  }

  /** Every kept product has non-zero sessions and units. */
  lemma KeptNonZero(raws: seq<RawRow>)
    requires forall i :: 0 <= i < |raws| ==> RowReadable(raws[i])
    ensures forall p :: p in Kept(raws) ==> p.sessions != 0.0 && p.units != 0.0
  {
    forall p | p in Kept(raws) ensures p.sessions != 0.0 && p.units != 0.0 {
      var i :| 0 <= i < |raws| && RowProduct(raws[i]) == Some(p);
    }
  }

  /** The outcome of load_and_clean_data. */
  datatype Loaded = ValueError | AttributeError | Clean(products: seq<Product>)

  /** Lines 15-36: the three conversions in the order the script runs them,
    * then the two filters. */
  function LoadAndClean(raws: seq<RawRow>): (r: Loaded)
    ensures r.Clean? <==> SessionsReadable(raws) && UnitsReadable(raws)
                          && SalesHoldText(raws) && SalesReadable(raws)
    ensures r.AttributeError? <==> SessionsReadable(raws) && UnitsReadable(raws) && !SalesHoldText(raws)
    ensures r.Clean? ==> forall p :: p in r.products ==> p.sessions != 0.0 && p.units != 0.0
  {
    if !SessionsReadable(raws) || !UnitsReadable(raws) then ValueError
    else if !SalesHoldText(raws) then AttributeError
    else if !SalesReadable(raws) then ValueError
    else
      KeptNonZero(raws);
      Clean(Kept(raws))
  }

  /** Converting "£1,234.50" reads as 1234.5 once the symbols are gone. */
  lemma SalesSymbolsIgnored(s: string, whole: string, frac: string)
    requires AllDigits(whole) && AllDigits(frac) && |whole| + |frac| > 0
    requires RemoveChars(s, {'£', ','}) == whole + "." + frac
    ensures SalesReading(Str(s)) == Reading(Some(DecimalValue(whole, frac)))
  {
    ParseFloatDecimal(whole, frac);
  }

  // ---------------------------------------------------------------- matrix

  datatype Category = Star | ProblemChild | HiddenGem | Dog

  function SessionsOf(ps: seq<Product>): (r: seq<real>)
    ensures |r| == |ps| && forall i :: 0 <= i < |ps| ==> r[i] == ps[i].sessions
  {
    seq(|ps|, i requires 0 <= i < |ps| => ps[i].sessions)
  }

  function ConversionsOf(ps: seq<Product>): (r: seq<real>)
    ensures |r| == |ps| && forall i :: 0 <= i < |ps| ==> r[i] == ps[i].conversion
  {
    seq(|ps|, i requires 0 <= i < |ps| => ps[i].conversion)
  }

  /** `x >= threshold`, False against a NaN threshold (an empty frame). */
  predicate High(x: real, threshold: Option<real>)
  {
    threshold.Some? && x >= threshold.value
  }

  /** Lines 50-61 (categorize_product): the nested test on the two flags. */
  function Categorize(p: Product, traffic: Option<real>, conversion: Option<real>): (c: Category)
    ensures c == Star <==> High(p.sessions, traffic) && High(p.conversion, conversion)
    ensures c == ProblemChild <==> High(p.sessions, traffic) && !High(p.conversion, conversion)
    ensures c == HiddenGem <==> !High(p.sessions, traffic) && High(p.conversion, conversion)
    ensures c == Dog <==> !High(p.sessions, traffic) && !High(p.conversion, conversion)
  {
    var highTraffic := High(p.sessions, traffic);
    var highConversion := High(p.conversion, conversion);
    if highTraffic && highConversion then Star
    else if highTraffic && !highConversion then ProblemChild
    else if !highTraffic && highConversion then HiddenGem
    else Dog
  }

  /** The categorised frame and the two thresholds create_traffic_conversion_matrix returns. */
  datatype Matrix = Matrix(categories: seq<Category>, traffic: Option<real>, conversion: Option<real>)

  /** Lines 38-71: both thresholds at the same percentile, one category per row. */
  function TrafficConversionMatrix(ps: seq<Product>, percentile: real): (m: Matrix)
    requires 0.0 <= percentile <= 100.0
    ensures |m.categories| == |ps|
    ensures m.traffic == Quantile(SessionsOf(ps), percentile / 100.0)
    ensures m.conversion == Quantile(ConversionsOf(ps), percentile / 100.0)
    ensures forall i :: 0 <= i < |ps| ==> m.categories[i] == Categorize(ps[i], m.traffic, m.conversion)
  {
    var traffic := Quantile(SessionsOf(ps), percentile / 100.0);
    var conversion := Quantile(ConversionsOf(ps), percentile / 100.0);
    Matrix(seq(|ps|, i requires 0 <= i < |ps| => Categorize(ps[i], traffic, conversion)), traffic, conversion)
  }

  /** A non-empty frame has at least one high-traffic and at least one
    * high-conversion product: each threshold of the matrix is reached by some row. */
  lemma MatrixThresholdsReached(ps: seq<Product>, percentile: real)
    requires 0.0 <= percentile <= 100.0 && ps != []
    ensures exists i :: 0 <= i < |ps| && High(ps[i].sessions, Quantile(SessionsOf(ps), percentile / 100.0))
    ensures exists j :: 0 <= j < |ps| && High(ps[j].conversion, Quantile(ConversionsOf(ps), percentile / 100.0))
  {
    var q := percentile / 100.0;
    var sessions, conversions := SessionsOf(ps), ConversionsOf(ps);
    QuantileReached(sessions, q);
    QuantileReached(conversions, q);
    var i :| 0 <= i < |sessions| && sessions[i] >= Quantile(sessions, q).value;
    var j :| 0 <= j < |conversions| && conversions[j] >= Quantile(conversions, q).value;
    assert High(ps[i].sessions, Quantile(SessionsOf(ps), percentile / 100.0));
    assert High(ps[j].conversion, Quantile(ConversionsOf(ps), percentile / 100.0));
  }

  // ---------------------------------------------------------------- opportunities

  /** A product with the units and revenue it would add at the target conversion. */
  datatype Opportunity = Opportunity(product: Product, additionalUnits: real, additionalRevenue: real)

  /** Lines 189-192: at least `minSessions` sessions and a conversion strictly
    * below the 30th percentile. */
  predicate Qualifies(p: Product, minSessions: real, low: Option<real>)
  {
    p.sessions >= minSessions && low.Some? && p.conversion < low.value
  }

  function Candidates(ps: seq<Product>, minSessions: real, low: Option<real>): (r: seq<Product>)
    ensures forall p :: p in r <==> p in ps && Qualifies(p, minSessions, low)
  {
    if ps == [] then []
    else
      var front := Candidates(ps[..|ps| - 1], minSessions, low);
      var last := ps[|ps| - 1];
      assert forall p :: p in ps <==> p in ps[..|ps| - 1] || p == last;
      if Qualifies(last, minSessions, low) then front + [last] else front
  }

  /** Lines 200-207: round(sessions * (target / 100) - units) extra units, and
    * those units times the order value, to 2 decimals. */
  function Estimate(p: Product, target: real): (o: Opportunity)
    ensures o.product == p
  {
    var units := RoundTo(p.sessions * (target / 100.0) - p.units, 0);
    Opportunity(p, units, RoundTo(units * p.aov, 2))
  }

  function Estimates(cs: seq<Product>, target: real): (r: seq<Opportunity>)
    ensures |r| == |cs| && forall i :: 0 <= i < |cs| ==> r[i] == Estimate(cs[i], target)
  {
    seq(|cs|, i requires 0 <= i < |cs| => Estimate(cs[i], target))
  }

  /** sort_values('potential_additional_revenue', ascending=False). */
  function RevenueKey(o: Opportunity): Key
  {
    Key(o.additionalRevenue, 0.0)
  }

  /** Lines 185-214 (identify_opportunity_products); an empty frame when nothing qualifies. */
  function OpportunityProducts(ps: seq<Product>, minSessions: real): seq<Opportunity>
  {
    var cs := Candidates(ps, minSessions, Quantile(ConversionsOf(ps), 0.3));
    if cs == [] then []
    else SortDesc(Estimates(cs, Quantile(ConversionsOf(ps), 0.7).value), RevenueKey)
  }

  /** The opportunities are exactly the qualifying products, each once per row
    * and each with its estimate at the 70th-percentile conversion, ordered by
    * falling additional revenue. */
  lemma OpportunityProductsCorrect(ps: seq<Product>, minSessions: real)
    ensures var r := OpportunityProducts(ps, minSessions);
      SortedDesc(r, RevenueKey)
      && |r| == |Candidates(ps, minSessions, Quantile(ConversionsOf(ps), 0.3))|
    ensures var r := OpportunityProducts(ps, minSessions);
      var cs := Candidates(ps, minSessions, Quantile(ConversionsOf(ps), 0.3));
      (cs == [] ==> r == [])
      && (cs != [] ==> multiset(r) == multiset(Estimates(cs, Quantile(ConversionsOf(ps), 0.7).value)))
    ensures var r := OpportunityProducts(ps, minSessions);
      var low := Quantile(ConversionsOf(ps), 0.3);
      forall o :: o in r <==> o.product in ps && Qualifies(o.product, minSessions, low)
                               && o == Estimate(o.product, Quantile(ConversionsOf(ps), 0.7).value)
  {
    var low := Quantile(ConversionsOf(ps), 0.3);
    var cs := Candidates(ps, minSessions, low);
    if cs != [] {
      var target := Quantile(ConversionsOf(ps), 0.7).value;
      var es := Estimates(cs, target);
      SortDescCorrect(es, RevenueKey);
      var r := SortDesc(es, RevenueKey);
      forall o ensures o in r <==> o in es {
        assert o in r <==> o in multiset(r);
        assert o in es <==> o in multiset(es);
      }
      forall o ensures o in es <==> o.product in cs && o == Estimate(o.product, target) {
        if o.product in cs && o == Estimate(o.product, target) {
          var i :| 0 <= i < |cs| && cs[i] == o.product;
          assert es[i] == o;
        }
      }
    }
  }

  /** The qualifying products are all high-traffic ones with low conversion:
    * an empty result means every product of `minSessions` sessions or more
    * converts at least at the 30th percentile. */
  lemma NoOpportunityMeans(ps: seq<Product>, minSessions: real)
    requires OpportunityProducts(ps, minSessions) == []
    ensures forall p :: p in ps && p.sessions >= minSessions
              ==> p.conversion >= Quantile(ConversionsOf(ps), 0.3).value
  {
    var cs := Candidates(ps, minSessions, Quantile(ConversionsOf(ps), 0.3));
    forall p | p in ps && p.sessions >= minSessions
      ensures p.conversion >= Quantile(ConversionsOf(ps), 0.3).value
    {
      var i :| 0 <= i < |ps| && ps[i] == p;
      assert ConversionsOf(ps) != [];
      assert p !in cs;
    }
  }
}
