/** Shared vocabulary of the report scripts: optional values, sums and means
  * that skip missing values, filters, a stable descending sort, head/tail and
  * Python's round(). */
module Common {

  datatype Option<T> = None | Some(value: T)

  // ---------------------------------------------------------------- sums

  function Sum(xs: seq<real>): real
  {
    if xs == [] then 0.0 else Sum(xs[..|xs| - 1]) + xs[|xs| - 1]
  }

  lemma SumAppend(xs: seq<real>, ys: seq<real>)
    ensures Sum(xs + ys) == Sum(xs) + Sum(ys)
    decreases |ys|
  {
    if ys == [] {
      assert xs + ys == xs;
    } else {
      assert (xs + ys)[..|xs + ys| - 1] == xs + ys[..|ys| - 1];
      SumAppend(xs, ys[..|ys| - 1]);
    }
  }

  /** A column that is the element-wise sum of two columns sums to their sums' sum. */
  lemma {:induction false} SumPointwise(xs: seq<real>, ys: seq<real>, zs: seq<real>)
    requires |xs| == |ys| == |zs|
    requires forall i :: 0 <= i < |zs| ==> zs[i] == xs[i] + ys[i]
    ensures Sum(zs) == Sum(xs) + Sum(ys)
  {
    if zs != [] {
      SumPointwise(xs[..|xs| - 1], ys[..|ys| - 1], zs[..|zs| - 1]);
    }
  }

  lemma {:induction false} SumNonNegative(xs: seq<real>)
    requires forall i :: 0 <= i < |xs| ==> xs[i] >= 0.0
    ensures Sum(xs) >= 0.0
  {
    if xs != [] {
      SumNonNegative(xs[..|xs| - 1]);
    }
  }

  /** The values that are present, in order: what pandas' sum() and mean() look at. */
  function Present(xs: seq<Option<real>>): (r: seq<real>)
    ensures |r| <= |xs|
    ensures forall v :: v in r <==> Some(v) in xs
  {
    if xs == [] then []
    else if xs[|xs| - 1].Some? then Present(xs[..|xs| - 1]) + [xs[|xs| - 1].value]
    else
      assert forall v :: Some(v) in xs <==> Some(v) in xs[..|xs| - 1];
      Present(xs[..|xs| - 1])
  }

  /** pandas Series.sum(): missing values are skipped, an all-missing series sums to 0. */
  function SumPresent(xs: seq<Option<real>>): real
  {
    Sum(Present(xs))
  }

  /** pandas Series.mean(): missing values are skipped; no value at all gives NaN (None). */
  function Mean(xs: seq<Option<real>>): (r: Option<real>)
    ensures r.None? <==> (forall i :: 0 <= i < |xs| ==> xs[i].None?)
  {
    var p := Present(xs);
    if |p| == 0 then
      assert forall i :: 0 <= i < |xs| ==> xs[i] in xs;
      None
    else
      assert p[0] in p;
      Some(Sum(p) / |p| as real)
  }

  lemma {:induction false} SumBounds(xs: seq<real>, lo: real, hi: real)
    requires forall i :: 0 <= i < |xs| ==> lo <= xs[i] <= hi
    ensures |xs| as real * lo <= Sum(xs) <= |xs| as real * hi
  {
    if xs != [] {
      SumBounds(xs[..|xs| - 1], lo, hi);
    }
  }

  lemma {:induction false} SumAtLeast(xs: seq<real>, lo: real)
    requires forall i :: 0 <= i < |xs| ==> xs[i] >= lo
    ensures Sum(xs) >= |xs| as real * lo
  {
    if xs != [] {
      SumAtLeast(xs[..|xs| - 1], lo);
    }
  }

  lemma {:induction false} SumAtMost(xs: seq<real>, hi: real)
    requires forall i :: 0 <= i < |xs| ==> xs[i] <= hi
    ensures Sum(xs) <= |xs| as real * hi
  {
    if xs != [] {
      SumAtMost(xs[..|xs| - 1], hi);
    }
  }

  /** pandas Series.sum() of a series without a negative number is not negative. */
  lemma SumPresentNonNegative(xs: seq<Option<real>>)
    requires forall i :: 0 <= i < |xs| && xs[i].Some? ==> xs[i].value >= 0.0
    ensures SumPresent(xs) >= 0.0
  {
    var p := Present(xs);
    forall k | 0 <= k < |p| ensures p[k] >= 0.0 {
      assert Some(p[k]) in xs;
    }
    SumNonNegative(p);
  }

  /** A mean is at least a floor that every present value respects. */
  lemma MeanAtLeast(xs: seq<Option<real>>, lo: real)
    requires forall i :: 0 <= i < |xs| && xs[i].Some? ==> xs[i].value >= lo
    ensures Mean(xs).Some? ==> Mean(xs).value >= lo
  {
    var p := Present(xs);
    if |p| > 0 {
      forall k | 0 <= k < |p| ensures p[k] >= lo {
        assert Some(p[k]) in xs;
      }
      SumAtLeast(p, lo);
      var n, total := |p| as real, Sum(p);
      DivideAtLeast(total, n, lo);
      assert Mean(xs) == Some(total / n);
    }
  }

  lemma DivideAtLeast(s: real, n: real, lo: real)
    requires n > 0.0 && n * lo <= s
    ensures lo <= s / n
  {
  }

  /** A mean lies between bounds that every present value respects. */
  lemma MeanBetween(xs: seq<Option<real>>, lo: real, hi: real)
    requires forall i :: 0 <= i < |xs| && xs[i].Some? ==> lo <= xs[i].value <= hi
    ensures Mean(xs).Some? ==> lo <= Mean(xs).value <= hi
  {
    var p := Present(xs);
    if |p| > 0 {
      PresentBetween(xs, lo, hi);
      AverageBetween(p, lo, hi);
    }
  }

  /** The average of a non-empty list lies between bounds its elements respect. */
  lemma AverageBetween(p: seq<real>, lo: real, hi: real)
    requires p != [] && forall i :: 0 <= i < |p| ==> lo <= p[i] <= hi
    ensures lo <= Sum(p) / |p| as real <= hi
  {
    SumBounds(p, lo, hi);
    DivideBetween(Sum(p), |p| as real, lo, hi);
  }

  lemma {:induction false} PresentBetween(xs: seq<Option<real>>, lo: real, hi: real)
    requires forall i :: 0 <= i < |xs| && xs[i].Some? ==> lo <= xs[i].value <= hi
    ensures forall i :: 0 <= i < |Present(xs)| ==> lo <= Present(xs)[i] <= hi
  {
    if xs != [] {
      PresentBetween(xs[..|xs| - 1], lo, hi);
    }
  }

  lemma DivideBetween(s: real, n: real, lo: real, hi: real)
    requires n > 0.0 && n * lo <= s <= n * hi
    ensures lo <= s / n <= hi
  {
  }

  function Somes(xs: seq<real>): (r: seq<Option<real>>)
    ensures |r| == |xs|
    ensures forall i :: 0 <= i < |xs| ==> r[i] == Some(xs[i])
  {
    seq(|xs|, i requires 0 <= i < |xs| => Some(xs[i]))
  }

  // ---------------------------------------------------------------- filters

  /** A boolean mask applied to a sequence (pandas `df[mask]`): order is kept. */
  function Filter<T>(s: seq<T>, p: T -> bool): (r: seq<T>)
    ensures |r| <= |s|
    ensures forall i :: 0 <= i < |r| ==> r[i] in s && p(r[i])
    ensures forall i :: 0 <= i < |s| && p(s[i]) ==> s[i] in r
  {
    if s == [] then []
    else if p(s[|s| - 1]) then Filter(s[..|s| - 1], p) + [s[|s| - 1]]
    else Filter(s[..|s| - 1], p)
  }

  lemma FilterAppend<T>(s: seq<T>, t: seq<T>, p: T -> bool)
    ensures Filter(s + t, p) == Filter(s, p) + Filter(t, p)
    decreases |t|
  {
    if t == [] {
      assert s + t == s;
    } else {
      assert (s + t)[..|s + t| - 1] == s + t[..|t| - 1];
      FilterAppend(s, t[..|t| - 1], p);
    }
  }

  function Count<T>(s: seq<T>, p: T -> bool): nat
  {
    |Filter(s, p)|
  }

  lemma CountStep<T>(s: seq<T>, p: T -> bool)
    requires s != []
    ensures Count(s, p) == Count(s[..|s| - 1], p) + if p(s[|s| - 1]) then 1 else 0
  {
  }

  /** When exactly one of three tests holds for each element, their counts add up to the length. */
  lemma {:induction false} CountPartition<T>(s: seq<T>, p: T -> bool, q: T -> bool, r: T -> bool)
    requires forall i :: 0 <= i < |s| ==>
      (if p(s[i]) then 1 else 0) + (if q(s[i]) then 1 else 0) + (if r(s[i]) then 1 else 0) == 1
    ensures Count(s, p) + Count(s, q) + Count(s, r) == |s|
  {
    if s != [] {
      CountPartition(s[..|s| - 1], p, q, r);
    }
  }

  /** DataFrame.head(n). */
  function Head<T>(s: seq<T>, n: nat): (r: seq<T>)
    ensures |r| == if n < |s| then n else |s|
    ensures r <= s
  {
    if n < |s| then s[..n] else s
  }

  /** DataFrame.tail(n). */
  function Tail<T>(s: seq<T>, n: nat): (r: seq<T>)
    ensures |r| == if n < |s| then n else |s|
    ensures r == s[|s| - |r|..]
  {
    if n < |s| then s[|s| - n..] else s
  }

  function Reverse<T>(s: seq<T>): (r: seq<T>)
    ensures |r| == |s|
    ensures forall i :: 0 <= i < |s| ==> r[i] == s[|s| - 1 - i]
  {
    seq(|s|, i requires 0 <= i < |s| => s[|s| - 1 - i])
  }

  /** Head and tail of a sequence at least twice as long as n are disjoint:
    * the sequence is the head, a middle part and the tail. */
  lemma HeadTailApart<T>(s: seq<T>, n: nat)
    requires |s| >= 2 * n
    ensures s == Head(s, n) + s[n..|s| - n] + Tail(s, n)
  {
    if n < |s| {
      assert s == s[..n] + s[n..|s| - n] + s[|s| - n..];
    }
  }

  /** A nonempty sequence shorter than 2n shares the last element of its head with its tail. */
  lemma HeadTailShare<T>(s: seq<T>, n: nat)
    requires 0 < |s| < 2 * n
    ensures |Head(s, n)| > 0 && Head(s, n)[|Head(s, n)| - 1] in Tail(s, n)
  {
    var h, t := Head(s, n), Tail(s, n);
    var k := |h| - 1;
    assert h[k] == s[k];
    assert t[k - (|s| - |t|)] == s[k];
  }

  /** The position of the first element satisfying p (a `for ... break` search). */
  function FirstWhere<T>(s: seq<T>, p: T -> bool): (r: Option<nat>)
    ensures r.Some? ==> r.value < |s| && p(s[r.value]) && forall j :: 0 <= j < r.value ==> !p(s[j])
    ensures r.None? ==> forall j :: 0 <= j < |s| ==> !p(s[j])
  {
    if s == [] then None
    else if p(s[0]) then Some(0)
    else match FirstWhere(s[1..], p)
      case None => None
      case Some(k) => Some(k + 1)
  }

  /** The position of the last element satisfying p (a loop that keeps overwriting its match). */
  function LastWhere<T>(s: seq<T>, p: T -> bool): (r: Option<nat>)
    ensures r.Some? ==> r.value < |s| && p(s[r.value]) && forall j :: r.value < j < |s| ==> !p(s[j])
    ensures r.None? ==> forall j :: 0 <= j < |s| ==> !p(s[j])
  {
    if s == [] then None
    else if p(s[|s| - 1]) then Some(|s| - 1)
    else LastWhere(s[..|s| - 1], p)
  }

  // ---------------------------------------------------------------- ordering

  /** A sort key compared lexicographically: `major` first, then `minor`. */
  datatype Key = Key(major: real, minor: real)

  predicate Above(a: Key, b: Key)
  {
    a.major > b.major || (a.major == b.major && a.minor > b.minor)
  }

  lemma AboveTotal(a: Key, b: Key)
    ensures a == b || Above(a, b) || Above(b, a)
    ensures !(Above(a, b) && Above(b, a))
  {
  }

  /** No element is strictly above an earlier one: descending order. */
  predicate SortedDesc<T>(s: seq<T>, key: T -> Key)
  {
    forall i, j :: 0 <= i < j < |s| ==> !Above(key(s[j]), key(s[i]))
  }

  /** Inserts `x` after every element whose key is at least its own. */
  function Insert<T>(x: T, s: seq<T>, key: T -> Key): seq<T>
  {
    if s == [] then [x]
    else if Above(key(x), key(s[0])) then [x] + s
    else [s[0]] + Insert(x, s[1..], key)
  }

  /** Stable descending sort (Python's list.sort(reverse=True) with a key). */
  function SortDesc<T>(s: seq<T>, key: T -> Key): seq<T>
  {
    if s == [] then [] else Insert(s[|s| - 1], SortDesc(s[..|s| - 1], key), key)
  }

  lemma {:induction false} InsertMultiset<T>(x: T, s: seq<T>, key: T -> Key)
    ensures multiset(Insert(x, s, key)) == multiset(s) + multiset{x}
    decreases |s|
  {
    if s != [] && !Above(key(x), key(s[0])) {
      InsertMultiset(x, s[1..], key);
      assert s == [s[0]] + s[1..];
    }
  }

  /** In a descending sequence nothing is above the first element. */
  lemma FirstIsTop<T>(s: seq<T>, key: T -> Key)
    requires SortedDesc(s, key) && s != []
    ensures forall y :: y in s ==> !Above(key(y), key(s[0]))
  {
    forall y | y in s ensures !Above(key(y), key(s[0])) {
      var k :| 0 <= k < |s| && s[k] == y;
      if k > 0 {
        assert !Above(key(s[k]), key(s[0]));
      }
    }
  }

  lemma {:induction false} InsertSorted<T>(x: T, s: seq<T>, key: T -> Key)
    requires SortedDesc(s, key)
    ensures SortedDesc(Insert(x, s, key), key)
    ensures multiset(Insert(x, s, key)) == multiset(s) + multiset{x}
    decreases |s|
  {
    InsertMultiset(x, s, key);
    if s == [] {
    } else if Above(key(x), key(s[0])) {
      SortedInFront(x, s, key);
    } else {
      InsertSorted(x, s[1..], key);
      var t := Insert(x, s[1..], key);
      FirstIsTop(s, key);
      assert forall y :: y in t ==> !Above(key(y), key(s[0])) by {
        forall y | y in t ensures !Above(key(y), key(s[0])) {
          assert y in multiset(t);
          assert y in multiset(s[1..]) || y == x;
          if y != x {
            assert y in s[1..];
          }
        }
      }
      SortedCons(s[0], t, key);
    }
  }

  /** An element above the first of a descending sequence can go in front. */
  lemma SortedInFront<T>(x: T, s: seq<T>, key: T -> Key)
    requires SortedDesc(s, key) && s != [] && Above(key(x), key(s[0]))
    ensures SortedDesc([x] + s, key)
  {
    FirstIsTop(s, key);
    var r := [x] + s;
    forall i, j | 0 <= i < j < |r| ensures !Above(key(r[j]), key(r[i])) {
      if i == 0 {
        assert r[j] in s;
        AboveTotal(key(r[j]), key(s[0]));
      }
    }
  }

  lemma SortedCons<T>(x: T, t: seq<T>, key: T -> Key)
    requires SortedDesc(t, key)
    requires forall y :: y in t ==> !Above(key(y), key(x))
    ensures SortedDesc([x] + t, key)
  {
    var r := [x] + t;
    forall i, j | 0 <= i < j < |r| ensures !Above(key(r[j]), key(r[i])) {
      if i == 0 {
        assert r[j] in t;
      } else {
        assert r[i] == t[i - 1] && r[j] == t[j - 1];
      }
    }
  }

  lemma {:induction false} SortDescCorrect<T>(s: seq<T>, key: T -> Key)
    ensures SortedDesc(SortDesc(s, key), key)
    ensures multiset(SortDesc(s, key)) == multiset(s)
    ensures |SortDesc(s, key)| == |s|
  {
    if s != [] {
      SortDescCorrect(s[..|s| - 1], key);
      InsertSorted(s[|s| - 1], SortDesc(s[..|s| - 1], key), key);
      assert s == s[..|s| - 1] + [s[|s| - 1]];
    }
    assert |SortDesc(s, key)| == |multiset(SortDesc(s, key))| == |multiset(s)|;
  }

  /** The elements of `s` whose key is exactly `k`, in order. */
  function WithKey<T>(s: seq<T>, key: T -> Key, k: Key): seq<T>
  {
    if s == [] then []
    else WithKey(s[..|s| - 1], key, k) + (if key(s[|s| - 1]) == k then [s[|s| - 1]] else [])
  }

  lemma WithKeyCons<T>(x: T, s: seq<T>, key: T -> Key, k: Key)
    ensures WithKey([x] + s, key, k) == (if key(x) == k then [x] else []) + WithKey(s, key, k)
    decreases |s|
  {
    if s != [] {
      assert ([x] + s)[..|[x] + s| - 1] == [x] + s[..|s| - 1];
      WithKeyCons(x, s[..|s| - 1], key, k);
    }
  }

  lemma {:induction false} WithKeyBelow<T>(s: seq<T>, key: T -> Key, k: Key)
    requires forall i :: 0 <= i < |s| ==> Above(k, key(s[i]))
    ensures WithKey(s, key, k) == []
  {
    if s != [] {
      WithKeyBelow(s[..|s| - 1], key, k);
    }
  }

  lemma AllBelow<T>(x: T, s: seq<T>, key: T -> Key)
    requires SortedDesc(s, key) && s != [] && Above(key(x), key(s[0]))
    ensures forall i :: 0 <= i < |s| ==> Above(key(x), key(s[i]))
  {
    forall i | 0 <= i < |s| ensures Above(key(x), key(s[i])) {
      if i > 0 {
        assert !Above(key(s[i]), key(s[0]));
        AboveTotal(key(s[i]), key(s[0]));
      }
    }
  }

  lemma {:induction false} InsertStable<T>(x: T, s: seq<T>, key: T -> Key, k: Key)
    requires SortedDesc(s, key)
    ensures WithKey(Insert(x, s, key), key, k)
         == WithKey(s, key, k) + (if key(x) == k then [x] else [])
    decreases |s|
  {
    if s == [] {
      assert WithKey([x], key, k) == WithKey([], key, k) + (if key(x) == k then [x] else []);
    } else if Above(key(x), key(s[0])) {
      InsertStableAbove(x, s, key, k);
    } else {
      var t := s[1..];
      SortedTail(s, key);
      InsertStable(x, t, key, k);
      InsertStableBehind(x, s, key, k);
    }
  }

  lemma SortedTail<T>(s: seq<T>, key: T -> Key)
    requires SortedDesc(s, key) && s != []
    ensures SortedDesc(s[1..], key)
  {
    var t := s[1..];
    forall i, j | 0 <= i < j < |t| ensures !Above(key(t[j]), key(t[i])) {
      assert t[i] == s[i + 1] && t[j] == s[j + 1];
    }
  }

  /** The case where `x` goes in front. */
  lemma InsertStableAbove<T>(x: T, s: seq<T>, key: T -> Key, k: Key)
    requires SortedDesc(s, key) && s != [] && Above(key(x), key(s[0]))
    ensures WithKey(Insert(x, s, key), key, k)
         == WithKey(s, key, k) + (if key(x) == k then [x] else [])
  {
    assert Insert(x, s, key) == [x] + s;
    WithKeyCons(x, s, key, k);
    if key(x) == k {
      AllBelow(x, s, key);
      WithKeyBelow(s, key, k);
    }
  }

  /** The case where `x` goes behind the first element, given the claim for the rest. */
  lemma InsertStableBehind<T>(x: T, s: seq<T>, key: T -> Key, k: Key)
    requires s != [] && !Above(key(x), key(s[0]))
    requires WithKey(Insert(x, s[1..], key), key, k)
          == WithKey(s[1..], key, k) + (if key(x) == k then [x] else [])
    ensures WithKey(Insert(x, s, key), key, k)
         == WithKey(s, key, k) + (if key(x) == k then [x] else [])
  {
    var t := s[1..];
    var first := if key(s[0]) == k then [s[0]] else [];
    var last := if key(x) == k then [x] else [];
    assert Insert(x, s, key) == [s[0]] + Insert(x, t, key);
    assert s == [s[0]] + t;
    WithKeyCons(s[0], t, key, k);
    WithKeyCons(s[0], Insert(x, t, key), key, k);
    assert WithKey(Insert(x, s, key), key, k) == first + (WithKey(t, key, k) + last);
    assert first + (WithKey(t, key, k) + last) == (first + WithKey(t, key, k)) + last;
  }

  /** Stability: among elements with equal keys the input order survives. */
  lemma {:induction false} SortDescStable<T>(s: seq<T>, key: T -> Key, k: Key)
    ensures WithKey(SortDesc(s, key), key, k) == WithKey(s, key, k)
  {
    if s != [] {
      SortDescStable(s[..|s| - 1], key, k);
      SortDescCorrect(s[..|s| - 1], key);
      InsertStable(s[|s| - 1], SortDesc(s[..|s| - 1], key), key, k);
    }
  }

  /** pandas nlargest / sort_values(ascending=False).head(n). */
  function TopBy<T>(s: seq<T>, key: T -> Key, n: nat): seq<T>
  {
    Head(SortDesc(s, key), n)
  }

  lemma TopByCorrect<T>(s: seq<T>, key: T -> Key, n: nat)
    ensures |TopBy(s, key, n)| == if n < |s| then n else |s|
    ensures SortedDesc(TopBy(s, key, n), key)
    ensures multiset(TopBy(s, key, n)) <= multiset(s)
    ensures forall x, y :: x in TopBy(s, key, n) && y in s && y !in TopBy(s, key, n)
              ==> !Above(key(y), key(x))
  {
    var t := SortDesc(s, key);
    SortDescCorrect(s, key);
    var h := Head(t, n);
    assert t == h + t[|h|..];
    assert multiset(h) <= multiset(t);
    forall x, y | x in h && y in s && y !in h ensures !Above(key(y), key(x)) {
      assert y in multiset(t);
      var i :| 0 <= i < |h| && h[i] == x;
      var j :| 0 <= j < |t| && t[j] == y;
      if j < |h| { assert h[j] == y; }
    }
  }

  // ---------------------------------------------------------------- quantiles

  /** Sorting by the negated value puts the smallest first. */
  function AscendingKey(x: real): Key
  {
    Key(-x, 0.0)
  }

  /** The values from smallest to largest. */
  function Ascending(xs: seq<real>): (r: seq<real>)
    ensures |r| == |xs| && multiset(r) == multiset(xs)
    ensures forall i, j :: 0 <= i < j < |r| ==> r[i] <= r[j]
  {
    SortDescCorrect(xs, AscendingKey);
    SortDesc(xs, AscendingKey)
  }

  /** The whole part of (m * q), the lower neighbour of the interpolation. */
  function Position(m: nat, q: real): (k: nat)
    requires 0.0 <= q <= 1.0
    ensures k <= m
    ensures k as real <= m as real * q < k as real + 1.0
  {
    var x := m as real * q;
    assert 0.0 <= x <= m as real by {
      assert m as real * q <= m as real * 1.0;
    }
    x.Floor
  }

  /** The value at position (n - 1) * q of `s`, interpolated linearly between
    * its two neighbours. */
  function Interpolated(s: seq<real>, q: real): real
    requires s != [] && 0.0 <= q <= 1.0
  {
    var lo := Position(|s| - 1, q);
    var frac := (|s| - 1) as real * q - lo as real;
    if lo + 1 < |s| then s[lo] + (s[lo + 1] - s[lo]) * frac else s[lo]
  }

  /** Series.quantile(q) with pandas' default linear interpolation over the
    * ascending order; no value gives NaN (None). */
  function Quantile(xs: seq<real>, q: real): (r: Option<real>)
    requires 0.0 <= q <= 1.0
    ensures r.None? <==> xs == []
  {
    if xs == [] then None else Some(Interpolated(Ascending(xs), q))
  }

  lemma InterpolateBetween(a: real, b: real, f: real)
    requires a <= b && 0.0 <= f < 1.0
    ensures a <= a + (b - a) * f <= b
  {
    MulNonNegative(b - a, f);
    MulAtMost(b - a, f);
  }

  lemma MulNonNegative(x: real, y: real)
    requires x >= 0.0 && y >= 0.0
    ensures x * y >= 0.0
  {
  }

  lemma MulAtMost(x: real, y: real)
    requires x >= 0.0 && y <= 1.0
    ensures x * y <= x
  {
    MulNonNegative(x, 1.0 - y);
    assert x * (1.0 - y) == x - x * y;
  }

  /** The two neighbours in ascending order that a quantile is interpolated between. */
  lemma QuantileNeighbours(xs: seq<real>, q: real) returns (lo: nat, hi: nat)
    requires 0.0 <= q <= 1.0 && xs != []
    ensures lo < |xs| && hi < |xs|
    ensures Ascending(xs)[lo] <= Quantile(xs, q).value <= Ascending(xs)[hi]
  {
    lo, hi := InterpolatedNeighbours(Ascending(xs), q);
  }

  lemma InterpolatedNeighbours(s: seq<real>, q: real) returns (lo: nat, hi: nat)
    requires 0.0 <= q <= 1.0 && s != []
    requires forall i, j :: 0 <= i < j < |s| ==> s[i] <= s[j]
    ensures lo < |s| && hi < |s|
    ensures s[lo] <= Interpolated(s, q) <= s[hi]
  {
    lo := Position(|s| - 1, q);
    hi := if lo + 1 < |s| then lo + 1 else lo;
    if lo + 1 < |s| {
      InterpolateBetween(s[lo], s[lo + 1], (|s| - 1) as real * q - lo as real);
    }
  }

  /** A quantile lies between two of the values: never below the smallest,
    * never above the largest. */
  lemma QuantileWithin(xs: seq<real>, q: real)
    requires 0.0 <= q <= 1.0 && xs != []
    ensures exists i :: 0 <= i < |xs| && xs[i] <= Quantile(xs, q).value
    ensures exists j :: 0 <= j < |xs| && Quantile(xs, q).value <= xs[j]
  {
    var lo, hi := QuantileNeighbours(xs, q);
    var s := Ascending(xs);
    assert s[lo] in multiset(s) && s[hi] in multiset(s);
    assert s[lo] in multiset(xs) && s[hi] in multiset(xs);
    var i :| 0 <= i < |xs| && xs[i] == s[lo];
    var j :| 0 <= j < |xs| && xs[j] == s[hi];
  }

  /** The values at or above a quantile: never none, whatever the quantile. */
  lemma QuantileReached(xs: seq<real>, q: real)
    requires 0.0 <= q <= 1.0 && xs != []
    ensures exists j :: 0 <= j < |xs| && xs[j] >= Quantile(xs, q).value
  {
    QuantileWithin(xs, q);
  }

  /** Series.median(): the 0.5 quantile, the middle value or the mean of the two middle ones. */
  function Median(xs: seq<real>): (r: Option<real>)
    ensures r.None? <==> xs == []
  {
    Quantile(xs, 0.5)
  }

  /** An odd number of values: the median is the middle one. */
  lemma MedianOfOdd(xs: seq<real>, k: nat)
    requires |xs| == 2 * k + 1
    ensures Median(xs) == Some(Ascending(xs)[k])
  {
    var s := Ascending(xs);
    assert (|s| - 1) as real * 0.5 == k as real;
    assert Position(|s| - 1, 0.5) == k;
    InterpolatedWhole(s, 0.5, k);
  }

  /** At a whole position the interpolation is the value there. */
  lemma InterpolatedWhole(s: seq<real>, q: real, k: nat)
    requires s != [] && 0.0 <= q <= 1.0
    requires Position(|s| - 1, q) == k && (|s| - 1) as real * q == k as real
    ensures k < |s| && Interpolated(s, q) == s[k]
  {
    if k + 1 < |s| {
      var d := s[k + 1] - s[k];
      assert d * ((|s| - 1) as real * q - k as real) == d * 0.0 == 0.0;
    }
  }

  /** An even number of values: the median is the mean of the two middle ones. */
  lemma MedianOfEven(xs: seq<real>, k: nat)
    requires |xs| == 2 * k + 2
    ensures Median(xs) == Some((Ascending(xs)[k] + Ascending(xs)[k + 1]) / 2.0)
  {
    var s := Ascending(xs);
    assert (|s| - 1) as real * 0.5 == k as real + 0.5;
    assert Position(|s| - 1, 0.5) == k;
    assert Interpolated(s, 0.5) == s[k] + (s[k + 1] - s[k]) * 0.5;
  }

  // ---------------------------------------------------------------- rounding

  /** x * 10^n, one factor of ten at a time (linear in x). */
  function Scale(x: real, n: nat): real
  {
    if n == 0 then x else 10.0 * Scale(x, n - 1)
  }

  /** x / 10^n, one factor of ten at a time (linear in x). */
  function Unscale(x: real, n: nat): real
  {
    if n == 0 then x else Unscale(x, n - 1) / 10.0
  }

  lemma {:induction false} UnscaleScale(x: real, n: nat)
    ensures Unscale(Scale(x, n), n) == x
  {
    if n > 0 {
      UnscaleScale(x, n - 1);
      UnscaleShift(Scale(x, n - 1), n - 1);
    }
  }

  /** Dividing 10y by 10^(n+1) is dividing y by 10^n. */
  lemma {:induction false} UnscaleShift(y: real, n: nat)
    ensures Unscale(10.0 * y, n + 1) == Unscale(y, n)
  {
    if n > 0 {
      UnscaleShift(y, n - 1);
      UnscaleAdd(10.0 * y, 0.0, n);
    }
    UnscaleTen(y, n);
  }

  lemma {:induction false} UnscaleTen(y: real, n: nat)
    ensures Unscale(10.0 * y, n) == 10.0 * Unscale(y, n)
  {
    if n > 0 {
      UnscaleTen(y, n - 1);
    }
  }

  lemma {:induction false} UnscaleAdd(a: real, b: real, n: nat)
    ensures Unscale(a + b, n) == Unscale(a, n) + Unscale(b, n)
  {
    if n > 0 {
      UnscaleAdd(a, b, n - 1);
    }
  }

  lemma {:induction false} UnscaleMonotone(a: real, b: real, n: nat)
    requires a <= b
    ensures Unscale(a, n) <= Unscale(b, n)
  {
    if n > 0 {
      UnscaleMonotone(a, b, n - 1);
    }
  }

  /** Python's round(x): to the nearest integer, halves to the even neighbour. */
  function RoundHalfEven(x: real): (r: int)
    ensures r as real - 0.5 <= x <= r as real + 0.5
    ensures x - x.Floor as real == 0.5 ==> r % 2 == 0
    ensures x == x.Floor as real ==> r == x.Floor
  {
    var f := x.Floor;
    var d := x - f as real;
    if d < 0.5 then f
    else if d > 0.5 then f + 1
    else if f % 2 == 0 then f
    else f + 1
  }

  /** Python's round(x, n) on the exact value of x. */
  function RoundTo(x: real, n: nat): real
  {
    Unscale(RoundHalfEven(Scale(x, n)) as real, n)
  }

  /** `.round(2)` on a float that may be NaN. */
  function Rounded(x: Option<real>): (r: Option<real>)
    ensures r.Some? <==> x.Some?
  {
    if x.Some? then Some(RoundTo(x.value, 2)) else None
  }

  /** round(x, n) is within half a unit of the n-th decimal of x. */
  lemma RoundToClose(x: real, n: nat)
    ensures x - Unscale(0.5, n) <= RoundTo(x, n) <= x + Unscale(0.5, n)
  {
    var q := Scale(x, n);
    var k := RoundHalfEven(q) as real;
    UnscaleMonotone(k, q + 0.5, n);
    UnscaleMonotone(q - 0.5, k, n);
    UnscaleAdd(q, 0.5, n);
    UnscaleAdd(q - 0.5, 0.5, n);
    UnscaleScale(x, n);
  }

  /** Rounding an integer to n decimals leaves it unchanged. */
  lemma RoundToInteger(i: int, n: nat)
    ensures RoundTo(i as real, n) == i as real
  {
    ScaleInteger(i, n);
    var m := ScaleInt(i, n);
    assert (m as real).Floor == m;
    UnscaleScale(i as real, n);
  }

  function ScaleInt(i: int, n: nat): int
  {
    if n == 0 then i else 10 * ScaleInt(i, n - 1)
  }

  lemma {:induction false} ScaleInteger(i: int, n: nat)
    ensures Scale(i as real, n) == ScaleInt(i, n) as real
  {
    if n > 0 {
      ScaleInteger(i, n - 1);
    }
  }

  /** Python's int(x) on a float: truncation toward zero. */
  function Truncate(x: real): (r: int)
    ensures x >= 0.0 ==> 0 <= r && r as real <= x < r as real + 1.0
    ensures x < 0.0 ==> r <= 0 && r as real - 1.0 < x <= r as real
  {
    if x >= 0.0 then x.Floor else -((-x).Floor)
  }
}
