/** A pandas DataFrame as the cleaning scripts use it: labelled columns of
  * equal height, read by label and overwritten in place (`df[col] = ...`),
  * relabelled (`df.columns = ...`, `df.rename`) and filtered by a row mask. */
module Frames {
  import opened Common
  import opened Cells

  function FirstIndex(labels: seq<string>, l: string): (k: nat)
    requires l in labels
    ensures k < |labels| && labels[k] == l
    ensures forall j :: 0 <= j < k ==> labels[j] != l
  {
    if labels[0] == l then 0 else 1 + FirstIndex(labels[1..], l)
  }

  lemma {:induction false} FirstIndexPrefix(labels: seq<string>, extra: seq<string>, l: string)
    requires l in labels
    ensures FirstIndex(labels + extra, l) == FirstIndex(labels, l)
  {
    if labels[0] != l {
      assert (labels + extra)[1..] == labels[1..] + extra;
      FirstIndexPrefix(labels[1..], extra, l);
    }
  }

  predicate Distinct(s: seq<string>)
  {
    forall i, j :: 0 <= i < j < |s| ==> s[i] != s[j]
  }

  /** `series.apply(f)`: every cell converted, order kept. */
  function MapCells(f: Cell -> Cell, c: seq<Cell>): (r: seq<Cell>)
    ensures |r| == |c|
    ensures forall i :: 0 <= i < |c| ==> r[i] == f(c[i])
  {
    seq(|c|, i requires 0 <= i < |c| => f(c[i]))
  }

  /** The numeric reading of every cell of a column. */
  function Numbers(c: seq<Cell>): (r: seq<Option<real>>)
    ensures |r| == |c| && forall i :: 0 <= i < |c| ==> r[i] == AsNumber(c[i])
  {
    seq(|c|, i requires 0 <= i < |c| => AsNumber(c[i]))
  }

  /** Elementwise combination of two equally long columns. */
  function ZipCells(f: (Cell, Cell) -> Cell, a: seq<Cell>, b: seq<Cell>): (r: seq<Cell>)
    requires |a| == |b|
    ensures |r| == |a|
    ensures forall i :: 0 <= i < |a| ==> r[i] == f(a[i], b[i])
  {
    seq(|a|, i requires 0 <= i < |a| => f(a[i], b[i]))
  }

  /** The cells of `c` whose mask entry is true, in order. */
  function Keep(c: seq<Cell>, mask: seq<bool>): (r: seq<Cell>)
    requires |c| == |mask|
    ensures |r| == CountTrue(mask)
  {
    if c == [] then []
    else Keep(c[..|c| - 1], mask[..|mask| - 1]) + (if mask[|mask| - 1] then [c[|c| - 1]] else [])
  }

  /** A property every cell at a kept position has, every kept cell has. */
  lemma {:induction false} KeepWhere(c: seq<Cell>, mask: seq<bool>, p: Cell -> bool)
    requires |c| == |mask|
    requires forall i :: 0 <= i < |c| && mask[i] ==> p(c[i])
    ensures forall j :: 0 <= j < |Keep(c, mask)| ==> p(Keep(c, mask)[j])
  {
    if c != [] {
      KeepWhere(c[..|c| - 1], mask[..|mask| - 1], p);
    }
  }

  /** A mask keeping every row keeps the column whole. */
  lemma {:induction false} KeepEverything(c: seq<Cell>, mask: seq<bool>)
    requires |c| == |mask| && forall i :: 0 <= i < |mask| ==> mask[i]
    ensures Keep(c, mask) == c
  {
    if c != [] {
      KeepEverything(c[..|c| - 1], mask[..|mask| - 1]);
    }
  }

  function CountTrue(mask: seq<bool>): nat
  {
    if mask == [] then 0 else CountTrue(mask[..|mask| - 1]) + (if mask[|mask| - 1] then 1 else 0)
  }

  /** Every column labelled `l` replaced by `values`. */
  function Replaced(labels: seq<string>, columns: seq<seq<Cell>>, l: string, values: seq<Cell>): (r: seq<seq<Cell>>)
    requires |labels| == |columns|
    ensures |r| == |columns|
  {
    seq(|columns|, k requires 0 <= k < |columns| => if labels[k] == l then values else columns[k])
  }

  /** The columns after `for n in names: if n in df.columns: df[n] = f(df[n])`. */
  function Applied(labels: seq<string>, columns: seq<seq<Cell>>, names: seq<string>, f: Cell -> Cell): (r: seq<seq<Cell>>)
    requires |labels| == |columns|
    ensures |r| == |columns|
  {
    seq(|columns|, k requires 0 <= k < |columns| =>
      if labels[k] in names then MapCells(f, columns[FirstIndex(labels, labels[k])]) else columns[k])
  }

  /** The same pass read on the table: each listed label's column converted cell by cell. */
  function AppliedTable(t: map<string, seq<Cell>>, names: seq<string>, f: Cell -> Cell): (r: map<string, seq<Cell>>)
    ensures r.Keys == t.Keys
    ensures forall l :: l in t ==> |r[l]| == |t[l]|
  {
    map l | l in t :: if l in names then MapCells(f, t[l]) else t[l]
  }

  /** Applied on the columns is AppliedTable on the table they make. */
  lemma AppliedTableOf(labels: seq<string>, columns: seq<seq<Cell>>, names: seq<string>, f: Cell -> Cell)
    requires |labels| == |columns|
    ensures TableOf(labels, Applied(labels, columns, names, f)) == AppliedTable(TableOf(labels, columns), names, f)
  {
    var a := Applied(labels, columns, names, f);
    forall l | l in labels
      ensures a[FirstIndex(labels, l)] == AppliedTable(TableOf(labels, columns), names, f)[l]
    {
    }
  }

  /** A column rewrite that keeps the height and that a second application leaves as it is. */
  ghost predicate Rewrite(g: seq<Cell> -> seq<Cell>)
  {
    (forall c :: |g(c)| == |c|) && (forall c :: g(g(c)) == g(c))
  }

  /** The table after `for l in df.columns: if p(l): df[l] = g(df[l])`. */
  function Transformed(t: map<string, seq<Cell>>, p: string -> bool, g: seq<Cell> -> seq<Cell>): (r: map<string, seq<Cell>>)
    ensures r.Keys == t.Keys
    ensures forall l :: l in t ==> r[l] == if p(l) then g(t[l]) else t[l]
  {
    map l | l in t :: if p(l) then g(t[l]) else t[l]
  }

  /** The same table once the labels in `done` have been visited. */
  ghost function PartlyTransformed(t: map<string, seq<Cell>>, p: string -> bool, g: seq<Cell> -> seq<Cell>,
                                   done: seq<string>): map<string, seq<Cell>>
  {
    map l | l in t :: if l in done && p(l) then g(t[l]) else t[l]
  }

  /** Visiting one more label; visiting it twice changes nothing more, g being idempotent. */
  lemma TransformedStep(t: map<string, seq<Cell>>, p: string -> bool, g: seq<Cell> -> seq<Cell>,
                        names: seq<string>, i: nat)
    requires i < |names| && names[i] in t
    requires forall c :: g(g(c)) == g(c)
    ensures var u := PartlyTransformed(t, p, g, names[..i]);
      PartlyTransformed(t, p, g, names[..i + 1]) == if p(names[i]) then u[names[i] := g(u[names[i]])] else u
  {
    var l0 := names[i];
    assert names[..i + 1] == names[..i] + [l0];
    var u := PartlyTransformed(t, p, g, names[..i]);
    var a := PartlyTransformed(t, p, g, names[..i + 1]);
    assert g(g(t[l0])) == g(t[l0]);
    var b := if p(l0) then u[l0 := g(u[l0])] else u;
    assert a.Keys == b.Keys;
    forall l | l in a ensures a[l] == b[l] {
      assert l in names[..i + 1] <==> l in names[..i] || l == l0;
    }
  }

  /** Nothing visited yet: the table as it was. */
  lemma PartlyTransformedNone(t: map<string, seq<Cell>>, p: string -> bool, g: seq<Cell> -> seq<Cell>)
    ensures PartlyTransformed(t, p, g, []) == t
  {
  }

  /** Every label visited: the whole transformation. */
  lemma TransformedAll(t: map<string, seq<Cell>>, p: string -> bool, g: seq<Cell> -> seq<Cell>, names: seq<string>)
    requires forall l :: l in t ==> l in names
    ensures PartlyTransformed(t, p, g, names) == Transformed(t, p, g)
  {
  }

  /** Every column of the table has `n` cells. */
  predicate Rectangular(t: map<string, seq<Cell>>, n: nat)
  {
    forall l :: l in t ==> |t[l]| == n
  }

  /** A rewrite keeps every column's height. */
  lemma TransformedRectangular(t: map<string, seq<Cell>>, p: string -> bool, g: seq<Cell> -> seq<Cell>, n: nat)
    requires Rectangular(t, n) && Rewrite(g)
    ensures Rectangular(Transformed(t, p, g), n)
  {
  }

  /** `df[mask]` on the table: each column keeps the cells at the positions the mask keeps. */
  function KeptTable(t: map<string, seq<Cell>>, mask: seq<bool>): (r: map<string, seq<Cell>>)
    requires Rectangular(t, |mask|)
    ensures r.Keys == t.Keys && Rectangular(r, CountTrue(mask))
    ensures forall l :: l in t ==> r[l] == Keep(t[l], mask)
  {
    map l | l in t :: Keep(t[l], mask)
  }

  /** Every label of the sequence is a key of the table. */
  predicate Labelled(labels: seq<string>, t: map<string, seq<Cell>>)
  {
    forall k :: 0 <= k < |labels| ==> labels[k] in t
  }

  /** The label-to-column map of labels read left to right: a repeated label
    * names its first column. */
  ghost function TableOf(labels: seq<string>, columns: seq<seq<Cell>>): map<string, seq<Cell>>
    requires |labels| == |columns|
  {
    map l | l in labels :: columns[FirstIndex(labels, l)]
  }

  class Frame {
    var labels: seq<string>
    var columns: seq<seq<Cell>>
    var height: nat

    ghost predicate Valid()
      reads this
    {
      |labels| == |columns| && forall k :: 0 <= k < |columns| ==> |columns[k]| == height
    }

    constructor (labels0: seq<string>, columns0: seq<seq<Cell>>, height0: nat)
      requires |labels0| == |columns0|
      requires forall k :: 0 <= k < |columns0| ==> |columns0[k]| == height0
      ensures Valid()
      ensures labels == labels0 && columns == columns0 && height == height0
    {
      labels, columns, height := labels0, columns0, height0;
    }

    predicate Has(l: string)
      reads this
    {
      l in labels
    }

    /** df[l] for a present label (the first column carrying it). */
    function Column(l: string): (c: seq<Cell>)
      reads this
      requires Valid() && Has(l)
      ensures |c| == height
    {
      columns[FirstIndex(labels, l)]
    }

    /** The frame as a map from each label to its column. */
    function Table(): (t: map<string, seq<Cell>>)
      reads this
      requires Valid()
      ensures t.Keys == set l | l in labels
      ensures forall l :: l in labels ==> t[l] == Column(l)
    {
      map l | l in labels :: Column(l)
    }

    /** Every label names a column of the table, and every column has `height` cells. */
    lemma TableFits()
      requires Valid()
      ensures Rectangular(Table(), height) && Labelled(labels, Table())
    {
    }

    /** The table is the one its labels and columns make. */
    lemma TableIsTableOf()
      requires Valid()
      ensures Table() == TableOf(labels, columns)
    {
    }

    /** df.iloc[i] as a label-to-cell map. */
    function Row(i: nat): (r: map<string, Cell>)
      reads this
      requires Valid() && i < height
      ensures r.Keys == set l | l in labels
      ensures forall l :: l in labels ==> r[l] == Column(l)[i]
    {
      map l | l in labels :: Column(l)[i]
    }

    function Rows(): (r: seq<map<string, Cell>>)
      reads this
      requires Valid()
      ensures |r| == height
      ensures forall i :: 0 <= i < height ==> r[i] == Row(i)
    {
      seq(height, i requires 0 <= i < height && Valid() reads this => Row(i))
    }

    /** df[l] = values: every column labelled `l` takes the values; an unknown label is appended. */
    method Assign(l: string, values: seq<Cell>)
      requires Valid() && |values| == height
      modifies this
      ensures Valid() && height == old(height)
      ensures labels == if l in old(labels) then old(labels) else old(labels) + [l]
      ensures columns == if l in old(labels) then Replaced(old(labels), old(columns), l, values)
                         else old(columns) + [values]
      ensures Column(l) == values
      ensures forall m :: m in old(labels) && m != l ==> Has(m) && Column(m) == old(Column(m))
      ensures Table() == old(Table())[l := values]
    {
      ghost var table := Table();
      if l in labels {
        columns := Replaced(labels, columns, l, values);
        SameTable(table, l, values);
      } else {
        ghost var before := labels;
        labels := labels + [l];
        columns := columns + [values];
        assert FirstIndex(labels, l) == |labels| - 1;
        forall m | m in before && m != l ensures Column(m) == old(Column(m)) {
          FirstIndexPrefix(before, [l], m);
        }
        SameTable(table, l, values);
      }
    }

    /** A table agreeing with this frame's columns off `l` and holding `values` at `l`. */
    lemma SameTable(table: map<string, seq<Cell>>, l: string, values: seq<Cell>)
      requires Valid() && Has(l) && Column(l) == values
      requires table.Keys + {l} == set m | m in labels
      requires forall m :: m in table && m != l ==> Has(m) && Column(m) == table[m]
      ensures Table() == table[l := values]
    {
      var t := Table();
      assert t.Keys == table[l := values].Keys;
      forall m | m in t ensures t[m] == table[l := values][m] {
      }
    }

    /** `df.columns = [f(c) for c in df.columns]` / `df.rename(columns=...)`. */
    method Relabel(f: string -> string)
      requires Valid()
      modifies this
      ensures Valid() && height == old(height) && columns == old(columns)
      ensures |labels| == |old(labels)|
      ensures forall k :: 0 <= k < |labels| ==> labels[k] == f(old(labels)[k])
    {
      var before := labels;
      labels := seq(|before|, k requires 0 <= k < |before| => f(before[k]));
    }

    /** `df = df[mask]`: the rows whose mask entry is true, in order, in every column. */
    method KeepRows(mask: seq<bool>)
      requires Valid() && |mask| == height
      modifies this
      ensures Valid() && labels == old(labels) && height == CountTrue(mask)
      ensures |columns| == |old(columns)|
      ensures forall k :: 0 <= k < |columns| ==> columns[k] == Keep(old(columns)[k], mask)
      ensures Rectangular(old(Table()), |mask|) && Table() == KeptTable(old(Table()), mask)
    {
      var before := columns;
      columns := seq(|before|, k requires 0 <= k < |before| && |before[k]| == |mask| => Keep(before[k], mask));
      height := CountTrue(mask);
    }

    /** `for n in names: if n in df.columns: df[n] = f(df[n])`. */
    method ApplyToColumns(names: seq<string>, f: Cell -> Cell)
      requires Valid() && Distinct(names)
      modifies this
      ensures Valid() && labels == old(labels) && height == old(height)
      ensures columns == Applied(old(labels), old(columns), names, f)
      ensures Table() == AppliedTable(old(Table()), names, f)
    {
      TableIsTableOf();
      var i := 0;
      while i < |names|
        invariant 0 <= i <= |names|
        invariant Valid() && labels == old(labels) && height == old(height)
        invariant columns == Applied(old(labels), old(columns), names[..i], f)
      {
        var n := names[i];
        assert n !in names[..i];
        if n in labels {
          var k0 := FirstIndex(labels, n);
          assert columns[k0] == old(columns)[k0];
          columns := Replaced(labels, columns, n, MapCells(f, Column(n)));
        }
        assert names[..i + 1] == names[..i] + [n];
        i := i + 1;
      }
      assert names[..i] == names;
      TableIsTableOf();
      AppliedTableOf(old(labels), old(columns), names, f);
    }

    /** One pass of the loop of TransformWhere, at label position i. */
    method TransformStep(ghost t0: map<string, seq<Cell>>, p: string -> bool, g: seq<Cell> -> seq<Cell>,
                         names: seq<string>, i: nat)
      requires Valid() && i < |names| && names[i] in labels && names[i] in t0
      requires Rewrite(g)
      requires Table() == PartlyTransformed(t0, p, g, names[..i])
      modifies this
      ensures Valid() && labels == old(labels) && height == old(height)
      ensures Table() == PartlyTransformed(t0, p, g, names[..i + 1])
    {
      TransformedStep(t0, p, g, names, i);
      var l := names[i];
      if p(l) {
        Assign(l, g(Column(l)));
      }
    }
  }

  /** `for l in df.columns: if p(l): df[l] = g(df[l])`, for a rewrite g that a
    * second application leaves as it is (a repeated label is rewritten twice). */
  method TransformWhere(df: Frame, p: string -> bool, g: seq<Cell> -> seq<Cell>)
    requires df.Valid() && Rewrite(g)
    modifies df
    ensures df.Valid() && df.labels == old(df.labels) && df.height == old(df.height)
    ensures df.Table() == Transformed(old(df.Table()), p, g)
  {
    ghost var t0 := df.Table();
    var names := df.labels;
    assert names[..0] == [];
    PartlyTransformedNone(t0, p, g);
    assert forall l :: l in t0 ==> l in names;
    for i := 0 to |names|
      invariant df.Valid() && df.labels == names && df.height == old(df.height)
      invariant df.Table() == PartlyTransformed(t0, p, g, names[..i])
    {
      df.TransformStep(t0, p, g, names, i);
    }
    assert names[..|names|] == names;
    TransformedAll(t0, p, g, names);
  }
}
