/** A row of the cleaned Business Report file, as the later analysis scripts
  * read it back with read_csv: the numeric columns are floats (NaN as None),
  * is_prime is a boolean and sku_category is text or NaN. Also the pandas
  * column operations those scripts share: percentiles that skip NaN, sums
  * that skip NaN, sort_values and nlargest on one column. */
module ReportRows {
  import opened Common
  import opened Cells
  import Frames

  datatype Listing = Listing(sku: string, category: Option<string>, prime: bool,
                             sessions: Option<real>, pageViews: Option<real>,
                             units: Option<real>, sales: Option<real>,
                             conversion: Option<real>, aov: Option<real>,
                             buyBox: Option<real>)

  /** The numeric columns of the cleaned file. */
  datatype Column = Sessions | PageViews | Units | Sales | Conversion | Aov | BuyBox

  function Value(l: Listing, c: Column): Option<real>
  {
    match c
    case Sessions => l.sessions
    case PageViews => l.pageViews
    case Units => l.units
    case Sales => l.sales
    case Conversion => l.conversion
    case Aov => l.aov
    case BuyBox => l.buyBox
  }

  function ColumnOf(ls: seq<Listing>, c: Column): (r: seq<Option<real>>)
    ensures |r| == |ls| && forall i :: 0 <= i < |ls| ==> r[i] == Value(ls[i], c)
  {
    seq(|ls|, i requires 0 <= i < |ls| => Value(ls[i], c))
  }

  /** `df[c].quantile(q)`: NaN is skipped; a column without a number gives NaN. */
  function Percentile(ls: seq<Listing>, c: Column, q: real): (r: Option<real>)
    requires 0.0 <= q <= 1.0
    ensures r.None? <==> forall i :: 0 <= i < |ls| ==> Value(ls[i], c).None?
  {
    var xs := ColumnOf(ls, c);
    assert Present(xs) == [] <==> Mean(xs).None?;
    Quantile(Present(xs), q)
  }

  /** `df[c].mean()`: NaN is skipped; a column without a number gives NaN. */
  function Average(ls: seq<Listing>, c: Column): (r: Option<real>)
    ensures r.None? <==> forall i :: 0 <= i < |ls| ==> Value(ls[i], c).None?
  {
    var xs := ColumnOf(ls, c);
    assert Present(xs) == [] <==> Mean(xs).None?;
    Mean(xs)
  }

  /** A column mean respects a floor every number of the column respects. */
  lemma AverageFloor(ls: seq<Listing>, c: Column, lo: real)
    requires forall i :: 0 <= i < |ls| && Value(ls[i], c).Some? ==> Value(ls[i], c).value >= lo
    ensures Average(ls, c).Some? ==> Average(ls, c).value >= lo
  {
    MeanAtLeast(ColumnOf(ls, c), lo);
  }

  /** `df[c].sum()`: NaN counts as nothing. */
  function Total(ls: seq<Listing>, c: Column): real
  {
    SumPresent(ColumnOf(ls, c))
  }

  /** `x >= t` and friends between a cell and a threshold that may itself be NaN. */
  predicate AtLeastThreshold(x: Option<real>, t: Option<real>)
  {
    t.Some? && AtLeast(x, t.value)
  }

  predicate AtMostThreshold(x: Option<real>, t: Option<real>)
  {
    t.Some? && AtMost(x, t.value)
  }

  predicate LessThanThreshold(x: Option<real>, t: Option<real>)
  {
    t.Some? && Less(x, t.value)
  }

  predicate GreaterThanThreshold(x: Option<real>, t: Option<real>)
  {
    t.Some? && Greater(x, t.value)
  }

  /** A sum of numbers each above `floor` is at least `floor` per number. */
  lemma TotalAbove(ls: seq<Listing>, c: Column, floor: real)
    requires forall i :: 0 <= i < |ls| ==> Greater(Value(ls[i], c), floor)
    ensures Total(ls, c) >= floor * |ls| as real
    ensures ls != [] && floor >= 0.0 ==> Total(ls, c) > floor * |ls| as real
  {
    var xs := ColumnOf(ls, c);
    PresentAbove(xs, floor);
    var m := |ls| as real;
    assert |xs| as real == m;
    assert Total(ls, c) == SumPresent(xs);
  }

  lemma PresentAbove(xs: seq<Option<real>>, floor: real)
    requires forall i :: 0 <= i < |xs| ==> Greater(xs[i], floor)
    ensures SumPresent(xs) >= floor * |xs| as real
    ensures xs != [] && floor >= 0.0 ==> SumPresent(xs) > floor * |xs| as real
  {
    var p := Present(xs);
    PresentAll(xs);
    PresentEachAbove(xs, floor);
    SumAbove(p, floor);
    assert SumPresent(xs) == Sum(p);
    SameScale(floor, |p|, |xs|);
  }

  lemma SameScale(x: real, a: nat, b: nat)
    requires a == b
    ensures x * a as real == x * b as real
  {
  }

  lemma PresentEachAbove(xs: seq<Option<real>>, floor: real)
    requires forall i :: 0 <= i < |xs| ==> Greater(xs[i], floor)
    ensures forall k :: 0 <= k < |Present(xs)| ==> Present(xs)[k] > floor
  {
    var p := Present(xs);
    forall k | 0 <= k < |p| ensures p[k] > floor {
      assert Some(p[k]) in xs;
    }
  }

  lemma {:induction false} PresentAll(xs: seq<Option<real>>)
    requires forall i :: 0 <= i < |xs| ==> xs[i].Some?
    ensures |Present(xs)| == |xs|
  {
    if xs != [] {
      PresentAll(xs[..|xs| - 1]);
    }
  }

  lemma {:induction false} SumAbove(ps: seq<real>, floor: real)
    requires forall k :: 0 <= k < |ps| ==> ps[k] > floor
    ensures Sum(ps) >= floor * |ps| as real
    ensures ps != [] && floor >= 0.0 ==> Sum(ps) > floor * |ps| as real
  {
    if ps != [] {
      var n := |ps| - 1;
      SumAbove(ps[..n], floor);
      var m := n as real;
      assert |ps| as real == m + 1.0;
      assert floor * (m + 1.0) == floor * m + floor;
    }
  }

  // ---------------------------------------------------------------- groupby('sku_category')

  /** The categories of the frame, each once, in order of first appearance;
    * rows whose category is NaN form no group. */
  function CategoryNames(ls: seq<Listing>): (r: seq<string>)
    ensures Frames.Distinct(r)
    ensures forall c :: c in r <==> exists i :: 0 <= i < |ls| && ls[i].category == Some(c)
  {
    if ls == [] then []
    else
      var n := |ls| - 1;
      var front := CategoryNames(ls[..n]);
      assert forall i :: 0 <= i < n ==> ls[..n][i] == ls[i];
      if ls[n].category.Some? && ls[n].category.value !in front then front + [ls[n].category.value]
      else front
  }

  /** No group at all exactly when every category is NaN. */
  lemma NoCategoryNames(ls: seq<Listing>)
    ensures CategoryNames(ls) == [] <==> forall i :: 0 <= i < |ls| ==> ls[i].category.None?
  {
    var r := CategoryNames(ls);
    if r != [] {
      assert r[0] in r;
    }
    forall i | 0 <= i < |ls| && ls[i].category.Some? ensures r != [] {
      assert ls[i].category.value in r;
    }
  }

  /** The rows of one category, in order. */
  function InCategory(ls: seq<Listing>, c: string): (r: seq<Listing>)
    ensures forall l :: l in r <==> l in ls && l.category == Some(c)
  {
    Filter(ls, (l: Listing) => l.category == Some(c))
  }

  // ---------------------------------------------------------------- ordering

  /** Descending order on one column with NaN last. */
  function ColumnKey(l: Listing, c: Column): Key
  {
    if Value(l, c).Some? then Key(1.0, Value(l, c).value) else Key(0.0, 0.0)
  }

  function KeyOn(c: Column): Listing -> Key
  {
    (l: Listing) => ColumnKey(l, c)
  }

  /** The rows whose column `c` holds a number, in order. */
  function WithValue(ls: seq<Listing>, c: Column): (r: seq<Listing>)
    ensures |r| <= |ls|
    ensures forall l :: l in r <==> l in ls && Value(l, c).Some?
  {
    if ls == [] then []
    else
      var n := |ls| - 1;
      assert ls == ls[..n] + [ls[n]];
      WithValue(ls[..n], c) + (if Value(ls[n], c).Some? then [ls[n]] else [])
  }

  /** When every row has a value, none is dropped. */
  lemma {:induction false} WithValueAll(ls: seq<Listing>, c: Column)
    requires forall i :: 0 <= i < |ls| ==> Value(ls[i], c).Some?
    ensures WithValue(ls, c) == ls
  {
    if ls != [] {
      var n := |ls| - 1;
      FrontAllValued(ls, ls[..n], c);
      WithValueAll(ls[..n], c);
      WithValueLast(ls, c);
      assert ls == ls[..n] + [ls[n]];
    }
  }

  lemma FrontAllValued(ls: seq<Listing>, front: seq<Listing>, c: Column)
    requires front <= ls && forall i :: 0 <= i < |ls| ==> Value(ls[i], c).Some?
    ensures forall i :: 0 <= i < |front| ==> Value(front[i], c).Some?
  {
    forall i | 0 <= i < |front| ensures Value(front[i], c).Some? {
      assert front[i] == ls[i];
    }
  }

  lemma WithValueLast(ls: seq<Listing>, c: Column)
    requires ls != [] && Value(ls[|ls| - 1], c).Some?
    ensures WithValue(ls, c) == WithValue(ls[..|ls| - 1], c) + [ls[|ls| - 1]]
  {
  }

  /** `df.nlargest(n, c)`: rows without a value are never picked. */
  function NLargest(ls: seq<Listing>, c: Column, n: nat): seq<Listing>
  {
    TopBy(WithValue(ls, c), KeyOn(c), n)
  }

  /** nlargest picks min(n, rows with a value) rows in descending order, and no
    * row left out has a larger value than a row picked. */
  lemma NLargestCorrect(ls: seq<Listing>, c: Column, n: nat)
    ensures var r := NLargest(ls, c, n);
      var m := |WithValue(ls, c)|;
      |r| == (if n < m then n else m)
      && (forall l :: l in r ==> l in ls && Value(l, c).Some?)
      && (forall i, j :: 0 <= i < j < |r| ==> Value(r[j], c).value <= Value(r[i], c).value)
      && (forall x, y :: x in r && y in ls && Value(y, c).Some? && y !in r ==> Value(y, c).value <= Value(x, c).value)
  {
    var w := WithValue(ls, c);
    var r := NLargest(ls, c, n);
    TopByCorrect(w, KeyOn(c), n);
    forall l | l in r ensures l in w {
      assert l in multiset(r);
    }
    forall i, j | 0 <= i < j < |r| ensures Value(r[j], c).value <= Value(r[i], c).value {
      assert r[i] in w && r[j] in w;
      assert !Above(KeyOn(c)(r[j]), KeyOn(c)(r[i]));
    }
    forall x, y | x in r && y in ls && Value(y, c).Some? && y !in r
      ensures Value(y, c).value <= Value(x, c).value
    {
      assert x in w && y in w;
      assert !Above(KeyOn(c)(y), KeyOn(c)(x));
    }
  }

  /** `df.sort_values(c, ascending=False)`. */
  function SortedBy(ls: seq<Listing>, c: Column): seq<Listing>
  {
    SortDesc(ls, KeyOn(c))
  }

  /** sort_values keeps every row, puts larger values first and NaN last. */
  lemma SortedByCorrect(ls: seq<Listing>, c: Column)
    ensures var r := SortedBy(ls, c);
      multiset(r) == multiset(ls)
      && (forall i, j :: 0 <= i < j < |r| && Value(r[j], c).Some? ==>
            Value(r[i], c).Some? && Value(r[j], c).value <= Value(r[i], c).value)
  {
    SortDescCorrect(ls, KeyOn(c));
    var r := SortedBy(ls, c);
    forall i, j | 0 <= i < j < |r| && Value(r[j], c).Some?
      ensures Value(r[i], c).Some? && Value(r[j], c).value <= Value(r[i], c).value
    {
      assert !Above(KeyOn(c)(r[j]), KeyOn(c)(r[i]));
    }
  }
}
