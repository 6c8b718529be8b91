/** analyze_business_report.py: a Business Report frame is relabelled to
  * snake_case, its percentage, currency and count columns are converted, SKU
  * information and guarded ratios are added as new columns, and the data-quality
  * check lists at most one issue of each kind. */
module BusinessReport {
  import opened Common
  import opened Text
  import opened NumParse
  import opened Cells
  import opened Frames
  import WeeklySales

  // ---------------------------------------------------------------- clean_column_names

  /** The 22 Business Report headers and their snake_case names, in the order
    * of the rename dictionary (lines 40-63). */
  const ColumnPairs: seq<(string, string)> := [
    ("(Parent) ASIN", "parent_asin"),
    ("(Child) ASIN", "child_asin"),
    ("Title", "title"),
    ("SKU", "sku"),
    ("Sessions – Total", "sessions_total"),
    ("Sessions – Total – B2B", "sessions_b2b"),
    ("Session percentage – Total", "session_percentage_total"),
    ("Session percentage – Total – B2B", "session_percentage_b2b"),
    ("Page views – Total", "page_views_total"),
    ("Page views – Total – B2B", "page_views_b2b"),
    ("Page views percentage – Total", "page_views_percentage_total"),
    ("Page views percentage – Total – B2B", "page_views_percentage_b2b"),
    ("Featured Offer (Buy Box) percentage", "buy_box_percentage"),
    ("Featured Offer (Buy Box) percentage – B2B", "buy_box_percentage_b2b"),
    ("Units ordered", "units_ordered"),
    ("Units ordered – B2B", "units_ordered_b2b"),
    ("Unit Session Percentage", "unit_session_percentage"),
    ("Unit session percentage – B2B", "unit_session_percentage_b2b"),
    ("Ordered Product Sales", "sales_total"),
    ("Ordered product sales – B2B", "sales_b2b"),
    ("Total order items", "order_items_total"),
    ("Total order items – B2B", "order_items_b2b")
  ]

  /** The new name of the first pair whose header is `l`. */
  function Lookup(pairs: seq<(string, string)>, l: string): (r: Option<string>)
    ensures r.None? <==> forall i :: 0 <= i < |pairs| ==> pairs[i].0 != l
    ensures r.Some? ==> exists i :: 0 <= i < |pairs| && pairs[i].0 == l && pairs[i].1 == r.value
  {
    if pairs == [] then None
    else if pairs[0].0 == l then Some(pairs[0].1)
    else
      var r := Lookup(pairs[1..], l);
      assert forall i :: 1 <= i < |pairs| ==> pairs[i] == pairs[1..][i - 1];
      r
  }

  /** df.rename(columns=column_mapping) on one label: a label that is not a header stays. */
  function Rename(l: string): string
  {
    match Lookup(ColumnPairs, l)
    case Some(v) => v
    case None => l
  }

  /** Every header starts with a capital or '(' and every new name with a lower-case letter. */
  lemma MappingShape()
    ensures forall i :: 0 <= i < |ColumnPairs| ==> ColumnPairs[i].0 != [] && (IsUpper(ColumnPairs[i].0[0]) || ColumnPairs[i].0[0] == '(')
    ensures forall i :: 0 <= i < |ColumnPairs| ==> ColumnPairs[i].1 != [] && 'a' <= ColumnPairs[i].1[0] <= 'z'
  {
  }

  /** A known header gets a name starting in lower case, any other label
    * stays, and renaming a second time changes nothing. */
  lemma RenameMeans(l: string)
    ensures (exists i :: 0 <= i < |ColumnPairs| && ColumnPairs[i].0 == l) ==>
      Rename(l) != [] && 'a' <= Rename(l)[0] <= 'z'
    ensures (forall i :: 0 <= i < |ColumnPairs| ==> ColumnPairs[i].0 != l) ==> Rename(l) == l
    ensures Rename(Rename(l)) == Rename(l)
  {
    MappingShape();
    var r := Lookup(ColumnPairs, l);
    if r.Some? {
      var v := r.value;
      forall i | 0 <= i < |ColumnPairs| ensures ColumnPairs[i].0 != v {
        assert 'a' <= v[0] <= 'z';
      }
    }
  }

  method CleanColumnNames(df: Frame)
    requires df.Valid()
    modifies df
    ensures df.Valid() && df.height == old(df.height) && df.columns == old(df.columns)
    ensures |df.labels| == |old(df.labels)|
    ensures forall k :: 0 <= k < |df.labels| ==> df.labels[k] == Rename(old(df.labels)[k])
  {
    df.Relabel(Rename);
  }

  // ---------------------------------------------------------------- the three cleaning passes

  const PercentageColumns: seq<string> := [
    "session_percentage_total", "session_percentage_b2b",
    "page_views_percentage_total", "page_views_percentage_b2b",
    "buy_box_percentage", "buy_box_percentage_b2b",
    "unit_session_percentage", "unit_session_percentage_b2b"]

  const CurrencyColumns: seq<string> := ["sales_total", "sales_b2b"]

  const NumericColumns: seq<string> := [
    "sessions_total", "sessions_b2b", "page_views_total", "page_views_b2b",
    "units_ordered", "units_ordered_b2b", "order_items_total", "order_items_b2b"]

  /** Lines 87-88: '%' deleted, then to_numeric with coercion. */
  function PercentageCell(c: Cell): Cell
  {
    CleanText(c, {'%'})
  }

  /** Lines 102-103: '£' and ',' deleted, then to_numeric with coercion. */
  function CurrencyCell(c: Cell): Cell
  {
    CleanText(c, {'£', ','})
  }

  /** Line 119: to_numeric with coercion, no separator removed. */
  function CountCell(c: Cell): Cell
  {
    Coerce(c)
  }

  method CleanPercentageColumns(df: Frame)
    requires df.Valid()
    modifies df
    ensures df.Valid() && df.labels == old(df.labels) && df.height == old(df.height)
    ensures df.columns == Applied(old(df.labels), old(df.columns), PercentageColumns, PercentageCell)
    ensures df.Table() == AppliedTable(old(df.Table()), PercentageColumns, PercentageCell)
  {
    df.ApplyToColumns(PercentageColumns, PercentageCell);
  }

  method CleanCurrencyColumns(df: Frame)
    requires df.Valid()
    modifies df
    ensures df.Valid() && df.labels == old(df.labels) && df.height == old(df.height)
    ensures df.columns == Applied(old(df.labels), old(df.columns), CurrencyColumns, CurrencyCell)
    ensures df.Table() == AppliedTable(old(df.Table()), CurrencyColumns, CurrencyCell)
  {
    df.ApplyToColumns(CurrencyColumns, CurrencyCell);
  }

  method CleanNumericColumns(df: Frame)
    requires df.Valid()
    modifies df
    ensures df.Valid() && df.labels == old(df.labels) && df.height == old(df.height)
    ensures df.columns == Applied(old(df.labels), old(df.columns), NumericColumns, CountCell)
    ensures df.Table() == AppliedTable(old(df.Table()), NumericColumns, CountCell)
  {
    df.ApplyToColumns(NumericColumns, CountCell);
  }

  /** No label is in two of the three lists, so each column is converted by at most one pass. */
  lemma ColumnGroupsDisjoint()
    ensures forall l :: l in PercentageColumns ==> l !in CurrencyColumns && l !in NumericColumns
    ensures forall l :: l in CurrencyColumns ==> l !in NumericColumns
  {
  }

  /** The table the three cleaning passes leave. */
  function CleanedTable(t: map<string, seq<Cell>>): (r: map<string, seq<Cell>>)
    ensures r.Keys == t.Keys
    ensures forall l :: l in t ==> |r[l]| == |t[l]|
  {
    AppliedTable(AppliedTable(AppliedTable(t, PercentageColumns, PercentageCell), CurrencyColumns, CurrencyCell),
                 NumericColumns, CountCell)
  }

  /** Each column is converted by the pass its name belongs to, and a column in no list is kept. */
  lemma CleanedTableMeans(t: map<string, seq<Cell>>, l: string)
    requires l in t
    ensures l in PercentageColumns ==> CleanedTable(t)[l] == MapCells(PercentageCell, t[l])
    ensures l in CurrencyColumns ==> CleanedTable(t)[l] == MapCells(CurrencyCell, t[l])
    ensures l in NumericColumns ==> CleanedTable(t)[l] == MapCells(CountCell, t[l])
    ensures l !in PercentageColumns && l !in CurrencyColumns && l !in NumericColumns ==> CleanedTable(t)[l] == t[l]
  {
    ColumnGroupsDisjoint();
  }

  /** A count written with a thousands separator does not survive the count pass. */
  lemma SeparatedCountIsMissing(a: string, b: string)
    requires a != [] && AllDigits(a) && AllDigits(b)
    ensures CountCell(Str(a + "," + b)) == Missing
  {
    var t := a + "," + b;
    assert t[|a|] == ',';
    assert IsDigit(t[0]);
    assert t[|t| - 1] == ',' || IsDigit(t[|t| - 1]) by {
      if b != [] { assert t[|t| - 1] == b[|b| - 1]; }
    }
    StripUnpadded(t);
    CommaBlocksDecimal(t, |a|);
  }

  /** A comma anywhere in an unsigned text makes float() fail. */
  lemma CommaBlocksDecimal(t: string, k: nat)
    requires k < |t| && t[k] == ',' && IsDigit(t[0]) && Strip(t) == t
    ensures ParseFloat(t) == None
  {
    assert ParseFloat(t) == ParseSignedDecimal(t);
    assert ParseSignedDecimal(t) == ParseUnsignedDecimal(t);
    CommaBlocksUnsigned(t, k);
  }

  lemma CommaBlocksUnsigned(t: string, k: nat)
    requires k < |t| && t[k] == ','
    ensures ParseUnsignedDecimal(t) == None
  {
    var p := FindChar(t, '.', 0);
    if p == -1 {
      assert !IsDigit(t[k]);
    } else if k < p {
      assert t[..p][k] == ',';
      assert !AllDigits(t[..p]);
    } else {
      assert k != p;
      assert t[p + 1..][k - p - 1] == ',';
      assert !AllDigits(t[p + 1..]);
    }
  }

  /** The same amount with pound sign and separator does survive the currency pass. */
  lemma SeparatedAmountIsNumber(a: string, b: string, frac: string)
    requires AllDigits(a) && AllDigits(b) && AllDigits(frac) && |a| + |b| + |frac| > 0
    ensures CurrencyCell(Str("£" + a + "," + b + "." + frac)) == Num(DecimalValue(a + b, frac))
  {
    WeeklySales.SeparatorsRemoved(a, b, frac);
    ParseFloatDecimal(a + b, frac);
  }

  /** A percentage "w.f%" becomes the number w.f. */
  lemma PercentageIsNumber(whole: string, frac: string)
    requires AllDigits(whole) && AllDigits(frac) && |whole| + |frac| > 0
    ensures PercentageCell(Str(whole + "." + frac + "%")) == Num(DecimalValue(whole, frac))
  {
    var n := whole + "." + frac;
    PercentDropped(n);
    ParseFloatDecimal(whole, frac);
  }

  /** Deleting '%' from a numeral followed by '%' leaves the numeral. */
  lemma PercentDropped(n: string)
    requires forall i :: 0 <= i < |n| ==> n[i] != '%'
    ensures RemoveChars(n + "%", {'%'}) == n
  {
    RemoveCharsUntouched(n, {'%'});
    RemoveCharsAppend(n, "%", {'%'});
    var pct := "%";
    assert pct[0] in {'%'} && pct[1..] == [];
  }

  // ---------------------------------------------------------------- extract_sku_info

  /** str.contains('Prime', case=False, na=False). */
  function IsPrime(c: Cell): bool
  {
    c.Str? && Contains(Lower(c.text), "prime")
  }

  /** Lowering distributes over concatenation. */
  lemma LowerAppend(a: string, b: string)
    ensures Lower(a + b) == Lower(a) + Lower(b)
  {
  }

  /** 'Prime' in any letter case anywhere in the SKU marks it Prime. */
  lemma PrimeAnywhere(a: string, word: string, b: string)
    requires Lower(word) == "prime"
    ensures IsPrime(Str(a + word + b))
  {
    LowerAppend(a + word, b);
    LowerAppend(a, word);
    assert OccursAt(Lower(word), "prime", 0);
    ContainsAt(Lower(word), "prime", 0);
    ContainsExtend(Lower(word), "prime", Lower(a), Lower(b));
  }

  /** A missing or non-text SKU is never Prime. */
  lemma NotTextNotPrime(c: Cell)
    requires !c.Str?
    ensures !IsPrime(c)
  {
  }

  const PrimeSuffix := " Prime"
  const NumberedPrefix := " - "

  /** str.replace(' Prime$', ''): one trailing " Prime" deleted, case-sensitively. */
  function DropPrime(s: string): string
  {
    if EndsWith(s, PrimeSuffix) then s[..|s| - |PrimeSuffix|] else s
  }

  /** str.replace(' - \\d+ Prime$', ''): a trailing " - <digits> Prime" deleted. */
  function DropNumberedPrime(s: string): string
  {
    if EndsWith(s, PrimeSuffix) then
      var pre := s[..|s| - |PrimeSuffix|];
      var k := TrailingDigits(pre);
      if k >= 1 && EndsWith(pre[..|pre| - k], NumberedPrefix) then pre[..|pre| - k - |NumberedPrefix|]
      else s
    else s
  }

  /** Lines 132-133: both replacements, in that order. */
  function BaseSku(s: string): string
  {
    DropPrime(DropNumberedPrime(s))
  }

  /** '^([A-Z]+)': the leading run of capitals, none when the SKU starts otherwise. */
  function SkuCategory(s: string): (r: Option<string>)
    ensures r.Some? ==> r.value != [] && StartsWith(s, r.value) && forall i :: 0 <= i < |r.value| ==> IsUpper(r.value[i])
    ensures r.Some? ==> |r.value| == |s| || !IsUpper(s[|r.value|])
    ensures r.None? <==> s == [] || !IsUpper(s[0])
  {
    var n := LeadingUpper(s);
    if n == 0 then None else Some(s[..n])
  }

  /** "<base> - <digits> Prime" loses that suffix (and a " Prime" the base itself ends with). */
  lemma NumberedSuffixRemoved(base: string, digits: string)
    requires digits != [] && AllDigits(digits)
    ensures BaseSku(base + (NumberedPrefix + (digits + PrimeSuffix))) == DropPrime(base)
  {
    var head := base + NumberedPrefix;
    var pre := head + digits;
    Regroup4(base, NumberedPrefix, digits, PrimeSuffix);
    DropNumbered(pre, PrimeSuffix);
    assert head[|head| - 1] == ' ';
    TrailingDigitsOf(head, digits);
    assert pre[..|pre| - |digits|] == head;
    DropNumbered(base, NumberedPrefix);
    var s := pre + PrimeSuffix;
    var k := TrailingDigits(pre);
    assert s[..|s| - |PrimeSuffix|] == pre;
    assert k == |digits| && pre[..|pre| - k] == head;
    assert EndsWith(head, NumberedPrefix) && head[..|head| - |NumberedPrefix|] == base;
    assert DropNumberedPrime(s) == base;
  }

  /** Cutting a suffix off `a + b`. */
  lemma DropNumbered(a: string, b: string)
    ensures (a + b)[|a|..] == b && (a + b)[..|a|] == a
    ensures EndsWith(a + b, b)
  {
  }

  lemma {:induction false} TrailingDigitsOf(a: string, d: string)
    requires AllDigits(d)
    requires a == [] || !IsDigit(a[|a| - 1])
    ensures TrailingDigits(a + d) == |d|
  {
    if d != [] {
      assert (a + d)[..|a + d| - 1] == a + d[..|d| - 1];
      TrailingDigitsOf(a, d[..|d| - 1]);
    } else {
      assert a + d == a;
    }
  }

  /** "<base> Prime" with no numbered part loses just " Prime". */
  lemma PlainSuffixRemoved(base: string)
    requires !IsDigit(LastOr(base))
    ensures BaseSku(base + PrimeSuffix) == base
  {
    var s := base + PrimeSuffix;
    assert s[..|s| - |PrimeSuffix|] == base;
    assert s[|s| - |PrimeSuffix|..] == PrimeSuffix;
    if base != [] {
      assert !IsDigit(base[|base| - 1]);
    }
    assert TrailingDigits(base) == 0;
    assert DropNumberedPrime(s) == s;
  }

  function LastOr(s: string): char
  {
    if s == [] then ' ' else s[|s| - 1]
  }

  /** A SKU that does not end in " Prime" (in that case) is its own base. */
  lemma NoSuffixUnchanged(s: string)
    requires !EndsWith(s, PrimeSuffix)
    ensures BaseSku(s) == s
  {
  }

  function PrimeCell(c: Cell): Cell
  {
    Flag(IsPrime(c))
  }

  /** str accessors give NaN on a missing or non-text SKU. */
  function BaseSkuCell(c: Cell): Cell
  {
    if c.Str? then Str(BaseSku(c.text)) else Missing
  }

  function CategoryCell(c: Cell): Cell
  {
    if c.Str? then (match SkuCategory(c.text) case Some(p) => Str(p) case None => Missing) else Missing
  }

  /** extract_sku_info (lines 124-141): three columns computed from the sku
    * column are set, and every other column is kept. */
  method ExtractSkuInfo(df: Frame)
    requires df.Valid() && df.Has("sku")
    modifies df
    ensures df.Valid() && df.height == old(df.height)
    ensures df.Table() == WithSkuInfo(old(df.Table()))
  {
    var sku := df.Column("sku");
    df.Assign("is_prime", MapCells(PrimeCell, sku));
    df.Assign("base_sku", MapCells(BaseSkuCell, sku));
    df.Assign("sku_category", MapCells(CategoryCell, sku));
  }

  // ---------------------------------------------------------------- calculate_derived_metrics

  function ConversionCell(units: Cell, sessions: Cell): Cell
  {
    GuardedRatio(units, sessions, 100.0)
  }

  function PerUnitCell(sales: Cell, units: Cell): Cell
  {
    GuardedRatio(sales, units, 1.0)
  }

  /** A boolean flag `column > threshold`; NaN compares false. */
  function AboveCell(threshold: real): Cell -> Cell
  {
    c => Flag(Greater(AsNumber(c), threshold))
  }

  /** calculate_derived_metrics (lines 143-171); the two 75th percentiles are
    * parameters. Six columns are set, in this order, and every other column is kept. */
  method CalculateDerivedMetrics(df: Frame, conversionQ75: real, salesQ75: real)
    requires df.Valid() && df.Has("sessions_total") && df.Has("units_ordered") && df.Has("sales_total")
    requires df.Has("buy_box_percentage")
    modifies df
    ensures df.Valid() && df.height == old(df.height)
    ensures Rectangular(old(df.Table()), old(df.height))
    ensures df.Table() == WithDerivedMetrics(old(df.Table()), old(df.height), conversionQ75, salesQ75)
  {
    df.TableFits();
    var sessions, units, sales := df.Column("sessions_total"), df.Column("units_ordered"), df.Column("sales_total");
    var buyBox := df.Column("buy_box_percentage");
    var conversion := ZipCells(ConversionCell, units, sessions);
    df.Assign("conversion_rate", conversion);
    df.Assign("avg_order_value", ZipCells(PerUnitCell, sales, units));
    df.Assign("revenue_per_session", ZipCells(PerUnitCell, sales, sessions));
    df.Assign("buy_box_win_rate", buyBox);
    df.Assign("high_conversion", MapCells(AboveCell(conversionQ75), conversion));
    df.Assign("high_revenue", MapCells(AboveCell(salesQ75), sales));
  }

  /** Each guarded ratio is 0 unless its denominator is a positive number. */
  lemma DerivedMetricGuards(units: Cell, sessions: Cell, sales: Cell)
    ensures !(sessions.Num? && sessions.value > 0.0) ==>
      ConversionCell(units, sessions) == Num(0.0) && PerUnitCell(sales, sessions) == Num(0.0)
    ensures !(units.Num? && units.value > 0.0) ==> PerUnitCell(sales, units) == Num(0.0)
    ensures sessions.Num? && sessions.value > 0.0 && units.Num? && 0.0 <= units.value <= sessions.value ==>
      ConversionCell(units, sessions).Num? && 0.0 <= ConversionCell(units, sessions).value <= 100.0
  {
    if sessions.Num? && sessions.value > 0.0 && units.Num? && 0.0 <= units.value <= sessions.value {
      var q := units.value / sessions.value;
      assert q * sessions.value == units.value;
      assert 0.0 <= q <= 1.0;
    }
  }

  // ---------------------------------------------------------------- identify_data_quality_issues

  datatype Issue = MissingValues(columns: nat) | DuplicateRows(count: nat)
                 | BuyBoxAbove100 | ConversionAbove100 | NegativeValues(column: string)

  /** df.isnull().any().sum(): how many columns hold at least one missing cell. */
  function MissingColumns(t: map<string, seq<Cell>>): nat
  {
    |set l | l in t && Missing in t[l]|
  }

  lemma MissingColumnsZero(t: map<string, seq<Cell>>)
    ensures MissingColumns(t) == 0 <==> forall l :: l in t ==> Missing !in t[l]
  {
    var s := set m | m in t && Missing in t[m];
    if exists l :: l in t && Missing in t[l] {
      var l :| l in t && Missing in t[l];
      assert l in s;
      assert |s| != 0;
    } else {
      assert s == {};
    }
  }

  /** The rows of a table, each as a label-to-cell map (df.iloc[i]). */
  function TableRows(t: map<string, seq<Cell>>, n: nat): (r: seq<map<string, Cell>>)
    requires Rectangular(t, n)
    ensures |r| == n
    ensures forall i :: 0 <= i < n ==> r[i].Keys == t.Keys
  {
    seq(n, i requires 0 <= i < n => map l | l in t :: t[l][i])
  }

  /** df.duplicated().sum(): rows equal to some earlier row. */
  function DuplicateCount<T(==)>(rows: seq<T>): nat
  {
    if rows == [] then 0
    else DuplicateCount(rows[..|rows| - 1]) + (if rows[|rows| - 1] in rows[..|rows| - 1] then 1 else 0)
  }

  /** The duplicates are exactly the rows beyond the distinct ones. */
  lemma {:induction false} DuplicateCountDistinct<T>(rows: seq<T>)
    ensures DuplicateCount(rows) + |set r | r in rows| == |rows|
  {
    if rows != [] {
      var init, last := rows[..|rows| - 1], rows[|rows| - 1];
      DuplicateCountDistinct(init);
      assert rows == init + [last];
      var before := set r | r in init;
      var after := set r | r in rows;
      if last in init {
        assert after == before;
      } else {
        assert after == before + {last};
        assert last !in before;
      }
    }
  }

  /** (column > t).any() */
  predicate AnyAbove(column: seq<Cell>, t: real)
  {
    exists i :: 0 <= i < |column| && Greater(AsNumber(column[i]), t)
  }

  /** (column < 0).any() */
  predicate AnyNegative(column: seq<Cell>)
  {
    exists i :: 0 <= i < |column| && Less(AsNumber(column[i]), 0.0)
  }

  const SignChecked: seq<string> := ["sessions_total", "units_ordered", "sales_total"]

  /** The negative-value issues for the listed columns that exist, in list order. */
  function NegativeIssues(t: map<string, seq<Cell>>, names: seq<string>): seq<Issue>
  {
    if names == [] then []
    else
      var last := names[|names| - 1];
      NegativeIssues(t, names[..|names| - 1])
        + (if last in t && AnyNegative(t[last]) then [NegativeValues(last)] else [])
  }

  /** The first four checks, from the quantities they look at. */
  function HeadIssues(missing: nat, duplicates: nat, buyBoxHigh: bool, conversionHigh: bool): seq<Issue>
  {
    (if missing > 0 then [MissingValues(missing)] else [])
      + (if duplicates > 0 then [DuplicateRows(duplicates)] else [])
      + (if buyBoxHigh then [BuyBoxAbove100] else [])
      + (if conversionHigh then [ConversionAbove100] else [])
  }

  /** The issues the check reports on a table of n rows, in the order it appends them. */
  function Issues(t: map<string, seq<Cell>>, n: nat): seq<Issue>
    requires Rectangular(t, n) && "buy_box_percentage" in t && "conversion_rate" in t
  {
    HeadIssues(MissingColumns(t), DuplicateCount(TableRows(t, n)),
               AnyAbove(t["buy_box_percentage"], 100.0), AnyAbove(t["conversion_rate"], 100.0))
      + NegativeIssues(t, SignChecked)
  }

  /** identify_data_quality_issues (lines 173-212). */
  method IdentifyDataQualityIssues(df: Frame) returns (issues: seq<Issue>)
    requires df.Valid() && df.Has("buy_box_percentage") && df.Has("conversion_rate")
    ensures Rectangular(df.Table(), df.height)
    ensures issues == Issues(df.Table(), df.height)
  {
    df.TableFits();
    var t := df.Table();
    issues := [];
    var missing := MissingColumns(t);
    if missing > 0 {
      issues := issues + [MissingValues(missing)];
    }
    var duplicates := DuplicateCount(TableRows(t, df.height));
    if duplicates > 0 {
      issues := issues + [DuplicateRows(duplicates)];
    }
    var buyBoxHigh := AnyAbove(df.Column("buy_box_percentage"), 100.0);
    if buyBoxHigh {
      issues := issues + [BuyBoxAbove100];
    }
    var conversionHigh := AnyAbove(df.Column("conversion_rate"), 100.0);
    if conversionHigh {
      issues := issues + [ConversionAbove100];
    }
    assert issues == HeadIssues(missing, duplicates, buyBoxHigh, conversionHigh);
    var negatives := CheckNegatives(t, SignChecked);
    issues := issues + negatives;
  }

  /** The loop over the sign-checked columns (lines 205-210). */
  method CheckNegatives(t: map<string, seq<Cell>>, names: seq<string>) returns (issues: seq<Issue>)
    ensures issues == NegativeIssues(t, names)
  {
    issues := [];
    for i := 0 to |names|
      invariant issues == NegativeIssues(t, names[..i])
    {
      var col := names[i];
      assert names[..i + 1][..i] == names[..i];
      if col in t && AnyNegative(t[col]) {
        issues := issues + [NegativeValues(col)];
      }
    }
    assert names[..|names|] == names;
  }

  predicate SameKind(a: Issue, b: Issue)
  {
    (a.MissingValues? && b.MissingValues?) || (a.DuplicateRows? && b.DuplicateRows?)
    || (a.BuyBoxAbove100? && b.BuyBoxAbove100?) || (a.ConversionAbove100? && b.ConversionAbove100?)
    || (a.NegativeValues? && b.NegativeValues? && a.column == b.column)
  }

  lemma {:induction false} NegativeIssuesShape(t: map<string, seq<Cell>>, names: seq<string>)
    ensures |NegativeIssues(t, names)| <= |names|
    ensures forall i :: 0 <= i < |NegativeIssues(t, names)| ==>
      NegativeIssues(t, names)[i].NegativeValues? && NegativeIssues(t, names)[i].column in names
    ensures Distinct(names) ==> forall i, j :: 0 <= i < j < |NegativeIssues(t, names)| ==>
      NegativeIssues(t, names)[i].column != NegativeIssues(t, names)[j].column
  {
    if names != [] {
      var init := names[..|names| - 1];
      NegativeIssuesShape(t, init);
      assert forall n :: n in init ==> n in names;
      if Distinct(names) {
        assert Distinct(init);
        assert names[|names| - 1] !in init;
      }
    }
  }

  lemma HeadIssuesShape(missing: nat, duplicates: nat, buyBoxHigh: bool, conversionHigh: bool)
    ensures |HeadIssues(missing, duplicates, buyBoxHigh, conversionHigh)| <= 4
    ensures var h := HeadIssues(missing, duplicates, buyBoxHigh, conversionHigh);
      forall i, j :: 0 <= i < j < |h| ==> !SameKind(h[i], h[j])
    ensures var h := HeadIssues(missing, duplicates, buyBoxHigh, conversionHigh);
      forall i :: 0 <= i < |h| ==> !h[i].NegativeValues?
    ensures HeadIssues(missing, duplicates, buyBoxHigh, conversionHigh) == [] <==>
      missing == 0 && duplicates == 0 && !buyBoxHigh && !conversionHigh
  {
  }

  /** However many rows offend, each kind of issue is reported at most once, so there are at most seven. */
  lemma IssuesAtMostOncePerKind(t: map<string, seq<Cell>>, n: nat)
    requires Rectangular(t, n) && "buy_box_percentage" in t && "conversion_rate" in t
    ensures |Issues(t, n)| <= 7
    ensures forall i, j :: 0 <= i < j < |Issues(t, n)| ==> !SameKind(Issues(t, n)[i], Issues(t, n)[j])
  {
    var head := HeadIssues(MissingColumns(t), DuplicateCount(TableRows(t, n)),
      AnyAbove(t["buy_box_percentage"], 100.0), AnyAbove(t["conversion_rate"], 100.0));
    var tail := NegativeIssues(t, SignChecked);
    HeadIssuesShape(MissingColumns(t), DuplicateCount(TableRows(t, n)),
      AnyAbove(t["buy_box_percentage"], 100.0), AnyAbove(t["conversion_rate"], 100.0));
    NegativeIssuesShape(t, SignChecked);
    assert Distinct(SignChecked);
    DistinctKinds(head, tail);
  }

  /** Two issue lists with no kind repeated, one without negative-value issues,
    * the other with only negative-value issues on distinct columns. */
  lemma DistinctKinds(head: seq<Issue>, tail: seq<Issue>)
    requires forall i, j :: 0 <= i < j < |head| ==> !SameKind(head[i], head[j])
    requires forall i :: 0 <= i < |head| ==> !head[i].NegativeValues?
    requires forall i :: 0 <= i < |tail| ==> tail[i].NegativeValues?
    requires forall i, j :: 0 <= i < j < |tail| ==> tail[i].column != tail[j].column
    ensures forall i, j :: 0 <= i < j < |head + tail| ==> !SameKind((head + tail)[i], (head + tail)[j])
  {
  }

  /** No issue is reported exactly when nothing is missing, no row repeats, no
    * buy-box or conversion value exceeds 100 and no checked column is negative. */
  lemma NoIssuesIff(t: map<string, seq<Cell>>, n: nat)
    requires Rectangular(t, n) && "buy_box_percentage" in t && "conversion_rate" in t
    ensures Issues(t, n) == [] <==>
      (forall l :: l in t ==> Missing !in t[l])
      && |set r | r in TableRows(t, n)| == n
      && !AnyAbove(t["buy_box_percentage"], 100.0)
      && !AnyAbove(t["conversion_rate"], 100.0)
      && forall m :: m in SignChecked && m in t ==> !AnyNegative(t[m])
  {
    MissingColumnsZero(t);
    DuplicateCountDistinct(TableRows(t, n));
    NegativeIssuesEmpty(t, SignChecked);
    HeadIssuesShape(MissingColumns(t), DuplicateCount(TableRows(t, n)),
      AnyAbove(t["buy_box_percentage"], 100.0), AnyAbove(t["conversion_rate"], 100.0));
  }

  lemma {:induction false} NegativeIssuesEmpty(t: map<string, seq<Cell>>, names: seq<string>)
    ensures NegativeIssues(t, names) == [] <==> forall m :: m in names && m in t ==> !AnyNegative(t[m])
  {
    if names != [] {
      var init := names[..|names| - 1];
      NegativeIssuesEmpty(t, init);
      assert names == init + [names[|names| - 1]];
    }
  }

  // ---------------------------------------------------------------- main

  function Renamed(labels: seq<string>): (r: seq<string>)
    ensures |r| == |labels| && forall k :: 0 <= k < |labels| ==> r[k] == Rename(labels[k])
  {
    seq(|labels|, k requires 0 <= k < |labels| => Rename(labels[k]))
  }

  /** The columns read by extract_sku_info and calculate_derived_metrics; a
    * missing one raises a KeyError there. */
  const RequiredColumns: seq<string> := ["sku", "sessions_total", "units_ordered", "sales_total", "buy_box_percentage"]

  /** The columns the two enrichment steps set, in the order they set them. */
  const AddedColumns: seq<string> := [
    "is_prime", "base_sku", "sku_category", "conversion_rate", "avg_order_value",
    "revenue_per_session", "buy_box_win_rate", "high_conversion", "high_revenue"]

  /** The table main has after cleaning, from the loaded labels and columns. */
  ghost function CleanedFrom(labels: seq<string>, columns: seq<seq<Cell>>): map<string, seq<Cell>>
    requires |labels| == |columns|
  {
    CleanedTable(TableOf(Renamed(labels), columns))
  }

  /** The table extract_sku_info (lines 124-141) leaves. */
  function WithSkuInfo(t: map<string, seq<Cell>>): (r: map<string, seq<Cell>>)
    requires "sku" in t
    ensures r.Keys == t.Keys + {"is_prime", "base_sku", "sku_category"}
    ensures forall l :: l in t && l !in {"is_prime", "base_sku", "sku_category"} ==> r[l] == t[l]
  {
    var sku := t["sku"];
    t["is_prime" := MapCells(PrimeCell, sku)]["base_sku" := MapCells(BaseSkuCell, sku)]
      ["sku_category" := MapCells(CategoryCell, sku)]
  }

  /** The table calculate_derived_metrics (lines 143-171) leaves. */
  function WithDerivedMetrics(t: map<string, seq<Cell>>, n: nat, conversionQ75: real, salesQ75: real): (r: map<string, seq<Cell>>)
    requires Rectangular(t, n)
    requires "sessions_total" in t && "units_ordered" in t && "sales_total" in t && "buy_box_percentage" in t
    ensures Rectangular(r, n)
    ensures r.Keys == t.Keys + {"conversion_rate", "avg_order_value", "revenue_per_session", "buy_box_win_rate",
                                "high_conversion", "high_revenue"}
  {
    var sessions, units, sales := t["sessions_total"], t["units_ordered"], t["sales_total"];
    var conversion := ZipCells(ConversionCell, units, sessions);
    t["conversion_rate" := conversion]
      ["avg_order_value" := ZipCells(PerUnitCell, sales, units)]
      ["revenue_per_session" := ZipCells(PerUnitCell, sales, sessions)]
      ["buy_box_win_rate" := t["buy_box_percentage"]]
      ["high_conversion" := MapCells(AboveCell(conversionQ75), conversion)]
      ["high_revenue" := MapCells(AboveCell(salesQ75), sales)]
  }

  /** The table the two enrichment steps of main leave. */
  function Enriched(t: map<string, seq<Cell>>, n: nat, conversionQ75: real, salesQ75: real): (r: map<string, seq<Cell>>)
    requires Rectangular(t, n) && forall m :: m in RequiredColumns ==> m in t
    ensures Rectangular(r, n) && "buy_box_percentage" in r && "conversion_rate" in r
  {
    assert "sku" in RequiredColumns && "sessions_total" in RequiredColumns && "units_ordered" in RequiredColumns;
    assert "sales_total" in RequiredColumns && "buy_box_percentage" in RequiredColumns;
    WithDerivedMetrics(WithSkuInfo(t), n, conversionQ75, salesQ75)
  }

  /** Enrichment keeps every column it does not set and carries the buy-box
    * share over; row by row, the conversion rate lies in [0, 100] when the units
    * do not exceed positive sessions, and a row is flagged high-conversion
    * exactly when its rate exceeds the threshold. */
  lemma DerivedMetricsMeans(t: map<string, seq<Cell>>, n: nat, conversionQ75: real, salesQ75: real, i: nat)
    requires Rectangular(t, n)
    requires "sessions_total" in t && "units_ordered" in t && "sales_total" in t && "buy_box_percentage" in t
    requires i < n
    ensures var r := WithDerivedMetrics(t, n, conversionQ75, salesQ75);
      forall l :: l in t && l !in AddedColumns ==> r[l] == t[l]
    ensures WithDerivedMetrics(t, n, conversionQ75, salesQ75)["buy_box_win_rate"] == t["buy_box_percentage"]
    ensures var r, s, u := WithDerivedMetrics(t, n, conversionQ75, salesQ75), t["sessions_total"][i], t["units_ordered"][i];
      s.Num? && s.value > 0.0 && u.Num? && 0.0 <= u.value <= s.value ==>
        r["conversion_rate"][i].Num? && 0.0 <= r["conversion_rate"][i].value <= 100.0
    ensures var r := WithDerivedMetrics(t, n, conversionQ75, salesQ75);
      r["high_conversion"][i] == Flag(Greater(AsNumber(r["conversion_rate"][i]), conversionQ75))
  {
    var r := WithDerivedMetrics(t, n, conversionQ75, salesQ75);
    var conversion := ZipCells(ConversionCell, t["units_ordered"], t["sessions_total"]);
    assert r["conversion_rate"] == conversion;
    assert r["high_conversion"] == MapCells(AboveCell(conversionQ75), conversion);
    DerivedMetricGuards(t["units_ordered"][i], t["sessions_total"][i], t["sales_total"][i]);
  }

  /** The four cleaning steps of main: the labels change name and the listed
    * columns are converted. */
  method CleanReport(df: Frame)
    requires df.Valid()
    modifies df
    ensures df.Valid() && df.height == old(df.height) && df.labels == Renamed(old(df.labels))
    ensures df.Table() == CleanedFrom(old(df.labels), old(df.columns))
  {
    CleanColumnNames(df);
    assert df.labels == Renamed(old(df.labels));
    df.TableIsTableOf();
    CleanPercentageColumns(df);
    CleanCurrencyColumns(df);
    CleanNumericColumns(df);
  }

  /** The two steps of main that add columns. */
  method EnrichReport(df: Frame, conversionQ75: real, salesQ75: real)
    requires df.Valid() && forall n :: n in RequiredColumns ==> df.Has(n)
    modifies df
    ensures df.Valid() && df.height == old(df.height)
    ensures Rectangular(old(df.Table()), old(df.height)) && forall m :: m in RequiredColumns ==> m in old(df.Table())
    ensures df.Table() == Enriched(old(df.Table()), old(df.height), conversionQ75, salesQ75)
  {
    assert "sku" in RequiredColumns && "sessions_total" in RequiredColumns && "units_ordered" in RequiredColumns;
    assert "sales_total" in RequiredColumns && "buy_box_percentage" in RequiredColumns;
    df.TableFits();
    ghost var t0 := df.Table();
    assert "sessions_total" in t0 && "units_ordered" in t0 && "sales_total" in t0 && "buy_box_percentage" in t0;
    ExtractSkuInfo(df);
    ghost var t1 := df.Table();
    assert "sessions_total" in t1 && "units_ordered" in t1 && "sales_total" in t1 && "buy_box_percentage" in t1;
    assert df.Has("sessions_total") && df.Has("units_ordered") && df.Has("sales_total") && df.Has("buy_box_percentage");
    CalculateDerivedMetrics(df, conversionQ75, salesQ75);
    assert df.Table() == WithDerivedMetrics(WithSkuInfo(t0), df.height, conversionQ75, salesQ75);
  }

  /** main (lines 270-307) from the loaded frame up to the quality check; the two
    * 75th percentiles are parameters and None stands for the KeyError raised when
    * a required column is absent after renaming, the frame being left as cleaned. */
  method AnalyzeReport(df: Frame, conversionQ75: real, salesQ75: real) returns (issues: Option<seq<Issue>>)
    requires df.Valid()
    modifies df
    ensures df.Valid() && df.height == old(df.height)
    ensures Rectangular(CleanedFrom(old(df.labels), old(df.columns)), old(df.height))
    ensures issues.None? <==> exists n :: n in RequiredColumns && n !in CleanedFrom(old(df.labels), old(df.columns))
    ensures issues.None? ==> df.Table() == CleanedFrom(old(df.labels), old(df.columns))
    ensures issues.Some? ==>
      df.Table() == Enriched(CleanedFrom(old(df.labels), old(df.columns)), old(df.height), conversionQ75, salesQ75)
    ensures issues.Some? ==> issues.value == Issues(df.Table(), df.height)
  {
    CleanReport(df);
    df.TableFits();
    ghost var cleaned := df.Table();
    assert forall n :: n in cleaned <==> n in df.labels;
    if exists n :: n in RequiredColumns && n !in df.labels {
      return None;
    }
    EnrichReport(df, conversionQ75, salesQ75);
    assert df.Table() == Enriched(cleaned, df.height, conversionQ75, salesQ75);
    var found := IdentifyDataQualityIssues(df);
    return Some(found);
  }

  // ---------------------------------------------------------------- save_cleaned_data

  /** Line 261-262: every '.csv' deleted, then '_cleaned.csv' appended. */
  function CleanedName(path: string): string
  {
    RemoveAll(path, ".csv") + "_cleaned.csv"
  }

  /** For a path whose only '.' starts the final ".csv", the name is base + "_cleaned.csv". */
  lemma CleanedNameOf(base: string)
    requires '.' !in base
    ensures CleanedName(base + ".csv") == base + "_cleaned.csv"
  {
    RemoveLastExtension(base);
  }

  lemma {:induction false} RemoveLastExtension(base: string)
    requires '.' !in base
    ensures RemoveAll(base + ".csv", ".csv") == base
  {
    var s := base + ".csv";
    if base == [] {
      assert s == ".csv";
      assert s[..4] == ".csv" && s[4..] == [];
    } else {
      assert base == [base[0]] + base[1..];
      assert s[0] == base[0] && s[0] != '.';
      assert s[..4] != ".csv";
      assert s[1..] == base[1..] + ".csv";
      assert RemoveAll(s, ".csv") == [s[0]] + RemoveAll(s[1..], ".csv");
      RemoveLastExtension(base[1..]);
    }
  }
}
