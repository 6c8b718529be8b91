/** analyze_new_report.py: the same renaming as the first Business Report
  * script, a cleaning pass that also unquotes amounts and removes separators
  * from counts, the guarded metrics with Prime and category columns, and three
  * opportunity filters counted into a short list. */
module NewReport {
  import opened Common
  import opened Text
  import opened NumParse
  import opened Cells
  import opened Frames
  import BusinessReport

  // ---------------------------------------------------------------- clean_data_types

  const AmountSymbols: set<char> := {'£', ',', '"'}
  const CountColumns: seq<string> := ["sessions_total", "sessions_b2b", "page_views_total", "page_views_b2b"]

  /** Lines 87-88: '£', ',' and '"' deleted, then to_numeric with coercion. */
  function AmountCell(c: Cell): Cell
  {
    CleanText(c, AmountSymbols)
  }

  /** Lines 94-95: ',' deleted, then to_numeric with coercion. */
  function SeparatedCountCell(c: Cell): Cell
  {
    CleanText(c, {','})
  }

  /** clean_data_types (lines 66-98): the percentage, amount and count passes in that order. */
  method CleanDataTypes(df: Frame)
    requires df.Valid()
    modifies df
    ensures df.Valid() && df.labels == old(df.labels) && df.height == old(df.height)
    ensures df.columns == Applied(df.labels,
      Applied(df.labels, Applied(df.labels, old(df.columns), BusinessReport.PercentageColumns, BusinessReport.PercentageCell),
        BusinessReport.CurrencyColumns, AmountCell),
      CountColumns, SeparatedCountCell)
    ensures df.Table() == DataTypesCleaned(old(df.Table()))
  {
    df.ApplyToColumns(BusinessReport.PercentageColumns, BusinessReport.PercentageCell);
    df.ApplyToColumns(BusinessReport.CurrencyColumns, AmountCell);
    df.ApplyToColumns(CountColumns, SeparatedCountCell);
  }

  /** The table clean_data_types leaves. */
  function DataTypesCleaned(t: map<string, seq<Cell>>): (r: map<string, seq<Cell>>)
    ensures r.Keys == t.Keys
    ensures forall l :: l in t ==> |r[l]| == |t[l]|
  {
    AppliedTable(AppliedTable(AppliedTable(t, BusinessReport.PercentageColumns, BusinessReport.PercentageCell),
      BusinessReport.CurrencyColumns, AmountCell), CountColumns, SeparatedCountCell)
  }

  /** Each listed column is converted by its own pass and holds no text afterwards;
    * units_ordered is in no list and is left as loaded. */
  lemma DataTypesCleanedMeans(t: map<string, seq<Cell>>, l: string)
    requires l in t
    ensures l in BusinessReport.PercentageColumns ==> DataTypesCleaned(t)[l] == MapCells(BusinessReport.PercentageCell, t[l])
    ensures l in BusinessReport.CurrencyColumns ==> DataTypesCleaned(t)[l] == MapCells(AmountCell, t[l])
    ensures l in CountColumns ==> DataTypesCleaned(t)[l] == MapCells(SeparatedCountCell, t[l])
    ensures l in BusinessReport.PercentageColumns + BusinessReport.CurrencyColumns + CountColumns ==>
      !HoldsText(DataTypesCleaned(t)[l])
    ensures "units_ordered" in t ==> DataTypesCleaned(t)["units_ordered"] == t["units_ordered"]
  {
    DataTypesCleanedConverts(t, l);
    var r := DataTypesCleaned(t)[l];
    if l in BusinessReport.PercentageColumns + BusinessReport.CurrencyColumns + CountColumns {
      forall i | 0 <= i < |r| ensures !r[i].Str? {
        if l in BusinessReport.PercentageColumns {
          assert r[i] == BusinessReport.PercentageCell(t[l][i]);
        } else if l in BusinessReport.CurrencyColumns {
          assert r[i] == AmountCell(t[l][i]);
        } else {
          assert r[i] == SeparatedCountCell(t[l][i]);
        }
      }
    }
    if "units_ordered" in t {
      UnitsOrderedUnlisted();
      DataTypesCleanedConverts(t, "units_ordered");
    }
  }

  lemma UnitsOrderedUnlisted()
    ensures "units_ordered" !in BusinessReport.PercentageColumns + BusinessReport.CurrencyColumns + CountColumns
  {
  }

  /** The pass that converts each listed column, and no pass for the others. */
  lemma DataTypesCleanedConverts(t: map<string, seq<Cell>>, l: string)
    requires l in t
    ensures l in BusinessReport.PercentageColumns ==> DataTypesCleaned(t)[l] == MapCells(BusinessReport.PercentageCell, t[l])
    ensures l in BusinessReport.CurrencyColumns ==> DataTypesCleaned(t)[l] == MapCells(AmountCell, t[l])
    ensures l in CountColumns ==> DataTypesCleaned(t)[l] == MapCells(SeparatedCountCell, t[l])
    ensures l !in BusinessReport.PercentageColumns + BusinessReport.CurrencyColumns + CountColumns ==>
      DataTypesCleaned(t)[l] == t[l]
  {
    BusinessReport.ColumnGroupsDisjoint();
    assert forall m :: m in CountColumns ==> m in BusinessReport.NumericColumns;
  }

  /** Deleting one more character that does not occur changes nothing. */
  lemma {:induction false} RemoveAbsent(s: string, drop: set<char>, x: char)
    requires forall i :: 0 <= i < |s| ==> s[i] != x
    ensures RemoveChars(s, drop + {x}) == RemoveChars(s, drop)
  {
    if s != [] {
      RemoveAbsent(s[1..], drop, x);
    }
  }

  /** An amount without quotes is read as in the first script; a quoted one as if unquoted. */
  lemma AmountAgreesUnquoted(text: string)
    requires forall i :: 0 <= i < |text| ==> text[i] != '"'
    ensures AmountCell(Str(text)) == BusinessReport.CurrencyCell(Str(text))
  {
    assert AmountSymbols == {'£', ','} + {'"'};
    RemoveAbsent(text, {'£', ','}, '"');
  }

  /** Quotes around an amount are dropped like the pound sign and separators. */
  lemma QuotesDropped(text: string)
    ensures AmountCell(Str("\"" + text + "\"")) == AmountCell(Str(text))
  {
    var q := "\"";
    assert q == ['"'] + [];
    assert q + text + q == ['"'] + (text + q);
    RemoveCharsDropped('"', text + q, AmountSymbols);
    RemoveCharsAppend(text, q, AmountSymbols);
    RemoveCharsDropped('"', [], AmountSymbols);
    assert RemoveChars(q + text + q, AmountSymbols) == RemoveChars(text, AmountSymbols);
  }

  /** A count "a,b" becomes the number ab here, while the first script's count pass makes it NaN. */
  lemma SeparatedCountIsNumber(a: string, b: string)
    requires a != [] && AllDigits(a) && AllDigits(b)
    ensures SeparatedCountCell(Str(a + "," + b)) == Num(DigitsValue(a + b) as real)
    ensures BusinessReport.CountCell(Str(a + "," + b)) == Missing
  {
    CommaRemoved(a, b);
    DigitsParse(a + b);
    BusinessReport.SeparatedCountIsMissing(a, b);
  }

  lemma CommaRemoved(a: string, b: string)
    requires AllDigits(a) && AllDigits(b)
    ensures RemoveChars(a + "," + b, {','}) == a + b
  {
    var drop := {','};
    assert a + "," + b == a + ([','] + b);
    RemoveCharsAppend(a, [','] + b, drop);
    RemoveCharsDropped(',', b, drop);
    RemoveCharsUntouched(a, drop);
    RemoveCharsUntouched(b, drop);
  }

  /** A digit string reads as its value. */
  lemma DigitsParse(d: string)
    requires d != [] && AllDigits(d)
    ensures ParseFloat(d) == Some(DigitsValue(d) as real)
  {
    StripUnpadded(d);
    assert ParseFloat(d) == ParseSignedDecimal(d);
    assert ParseSignedDecimal(d) == ParseUnsignedDecimal(d);
    assert forall i :: 0 <= i < |d| ==> d[i] != '.';
    assert FindChar(d, '.', 0) == -1;
  }

  // ---------------------------------------------------------------- calculate_metrics

  /** str.contains('Prime|prime', case=False, na=False): either alternative, ignoring case. */
  function MatchesPrime(c: Cell): bool
  {
    c.Str? && (Contains(Lower(c.text), Lower("Prime")) || Contains(Lower(c.text), Lower("prime")))
  }

  /** The alternation adds nothing: it is the first script's case-insensitive 'Prime' test. */
  lemma MatchesPrimeIsPrime(c: Cell)
    ensures MatchesPrime(c) == BusinessReport.IsPrime(c)
  {
    var p, q := "Prime", "prime";
    assert Lower(p) == q by {
      assert |Lower(p)| == |q|;
      forall i | 0 <= i < |q| ensures Lower(p)[i] == q[i] {
      }
    }
    assert Lower(q) == q by {
      assert |Lower(q)| == |q|;
      forall i | 0 <= i < |q| ensures Lower(q)[i] == q[i] {
      }
    }
  }

  function PrimeFlag(c: Cell): Cell
  {
    Flag(MatchesPrime(c))
  }

  /** calculate_metrics (lines 100-123) fails: a KeyError when an input column is
    * absent, a TypeError when sessions, units or sales hold text (the comparisons
    * and divisions of lines 106-115 on an `object` column). */
  predicate MetricsRaise(t: map<string, seq<Cell>>)
  {
    !("sessions_total" in t && "units_ordered" in t && "sales_total" in t && "sku" in t)
    || HoldsText(t["sessions_total"]) || HoldsText(t["units_ordered"]) || HoldsText(t["sales_total"])
  }

  /** The table calculate_metrics leaves: five columns set, in this order. */
  function WithMetrics(t: map<string, seq<Cell>>, n: nat): (r: map<string, seq<Cell>>)
    requires Rectangular(t, n) && !MetricsRaise(t)
    ensures Rectangular(r, n)
    ensures forall l :: l in t ==> l in r
    ensures "conversion_rate" in r && "avg_order_value" in r && "revenue_per_session" in r && "is_prime" in r
    ensures "sku_category" in r
  {
    var sessions, units, sales, sku := t["sessions_total"], t["units_ordered"], t["sales_total"], t["sku"];
    t["conversion_rate" := ZipCells(BusinessReport.ConversionCell, units, sessions)]
      ["avg_order_value" := ZipCells(BusinessReport.PerUnitCell, sales, units)]
      ["revenue_per_session" := ZipCells(BusinessReport.PerUnitCell, sales, sessions)]
      ["is_prime" := MapCells(PrimeFlag, sku)]
      ["sku_category" := MapCells(BusinessReport.CategoryCell, sku)]
  }

  /** The metrics keep every column they do not set; on numeric inputs each ratio
    * is 0 unless its denominator is positive, and the Prime flag is the first
    * script's. */
  lemma WithMetricsMeans(t: map<string, seq<Cell>>, n: nat, i: nat)
    requires Rectangular(t, n) && !MetricsRaise(t) && i < n
    ensures forall l :: l in t && l !in {"conversion_rate", "avg_order_value", "revenue_per_session", "is_prime", "sku_category"} ==>
      WithMetrics(t, n)[l] == t[l]
    ensures var s := t["sessions_total"][i];
      !(s.Num? && s.value > 0.0) ==> WithMetrics(t, n)["conversion_rate"][i] == Num(0.0)
    ensures var u := t["units_ordered"][i];
      !(u.Num? && u.value > 0.0) ==> WithMetrics(t, n)["avg_order_value"][i] == Num(0.0)
    ensures WithMetrics(t, n)["is_prime"][i] == BusinessReport.PrimeCell(t["sku"][i])
  {
    var r := WithMetrics(t, n);
    assert r["conversion_rate"] == ZipCells(BusinessReport.ConversionCell, t["units_ordered"], t["sessions_total"]);
    assert r["avg_order_value"] == ZipCells(BusinessReport.PerUnitCell, t["sales_total"], t["units_ordered"]);
    assert r["is_prime"] == MapCells(PrimeFlag, t["sku"]);
    BusinessReport.DerivedMetricGuards(t["units_ordered"][i], t["sessions_total"][i], t["sales_total"][i]);
    MatchesPrimeIsPrime(t["sku"][i]);
  }

  /** calculate_metrics on the frame; `raised` is the KeyError or TypeError, after
    * which main discards the frame, so the model leaves it as it was. */
  method CalculateMetrics(df: Frame) returns (raised: bool)
    requires df.Valid()
    modifies df
    ensures df.Valid() && df.height == old(df.height)
    ensures Rectangular(old(df.Table()), old(df.height))
    ensures raised <==> MetricsRaise(old(df.Table()))
    ensures raised ==> df.Table() == old(df.Table())
    ensures !raised ==> df.Table() == WithMetrics(old(df.Table()), old(df.height))
  {
    df.TableFits();
    if MetricsRaise(df.Table()) {
      return true;
    }
    var sessions, units, sales, sku := df.Column("sessions_total"), df.Column("units_ordered"),
                                       df.Column("sales_total"), df.Column("sku");
    df.Assign("conversion_rate", ZipCells(BusinessReport.ConversionCell, units, sessions));
    df.Assign("avg_order_value", ZipCells(BusinessReport.PerUnitCell, sales, units));
    df.Assign("revenue_per_session", ZipCells(BusinessReport.PerUnitCell, sales, sessions));
    df.Assign("is_prime", MapCells(PrimeFlag, sku));
    df.Assign("sku_category", MapCells(BusinessReport.CategoryCell, sku));
    raised := false;
  }

  // ---------------------------------------------------------------- identify_opportunities

  /** Lines 182-185: sessions at or above their 75th percentile, conversion at or below its 25th. */
  predicate HighTrafficLowConversion(sessions: Cell, conversion: Cell, sessionsQ75: real, conversionQ25: real)
  {
    AtLeast(AsNumber(sessions), sessionsQ75) && AtMost(AsNumber(conversion), conversionQ25)
  }

  /** Lines 194-197: buy box exactly 0 with at least 50 sessions. */
  predicate NoBuyBox(buyBox: Cell, sessions: Cell)
  {
    EqualTo(AsNumber(buyBox), 0.0) && AtLeast(AsNumber(sessions), 50.0)
  }

  /** Lines 207-210: not Prime, with sales at or above their 75th percentile. */
  predicate NonPrimePerformer(prime: Cell, sales: Cell, salesQ75: real)
  {
    prime == Flag(false) && AtLeast(AsNumber(sales), salesQ75)
  }

  function Mask(a: seq<Cell>, b: seq<Cell>, p: (Cell, Cell) -> bool): (m: seq<bool>)
    requires |a| == |b|
    ensures |m| == |a| && forall i :: 0 <= i < |a| ==> m[i] == p(a[i], b[i])
  {
    seq(|a|, i requires 0 <= i < |a| => p(a[i], b[i]))
  }

  datatype Opportunity = HighTrafficLowConversionCount(products: nat) | NoBuyBoxCount(products: nat)
                       | NonPrimeCount(products: nat)

  /** The percentiles the filters compare with, computed by the caller. */
  datatype Percentiles = Percentiles(sessionsQ75: real, conversionQ25: real, salesQ75: real)

  predicate HasOpportunityColumns(t: map<string, seq<Cell>>)
  {
    "sessions_total" in t && "conversion_rate" in t && "buy_box_percentage" in t && "is_prime" in t && "sales_total" in t
  }

  function HighTrafficMask(t: map<string, seq<Cell>>, n: nat, q: Percentiles): (m: seq<bool>)
    requires Rectangular(t, n) && HasOpportunityColumns(t)
    ensures |m| == n
  {
    Mask(t["sessions_total"], t["conversion_rate"], (s, c) => HighTrafficLowConversion(s, c, q.sessionsQ75, q.conversionQ25))
  }

  function NoBuyBoxMask(t: map<string, seq<Cell>>, n: nat): (m: seq<bool>)
    requires Rectangular(t, n) && HasOpportunityColumns(t)
    ensures |m| == n
  {
    Mask(t["buy_box_percentage"], t["sessions_total"], NoBuyBox)
  }

  function NonPrimeMask(t: map<string, seq<Cell>>, n: nat, q: Percentiles): (m: seq<bool>)
    requires Rectangular(t, n) && HasOpportunityColumns(t)
    ensures |m| == n
  {
    Mask(t["is_prime"], t["sales_total"], (p, s) => NonPrimePerformer(p, s, q.salesQ75))
  }

  /** The messages of identify_opportunities as counts, from the filter sizes, in that order. */
  function OpportunitiesOf(highTraffic: nat, noBuyBox: nat, nonPrime: nat): (r: seq<Opportunity>)
    ensures |r| <= 3
    ensures HighTrafficLowConversionCount(highTraffic) in r <==> highTraffic > 0
    ensures NoBuyBoxCount(noBuyBox) in r <==> noBuyBox > 0
    ensures NonPrimeCount(nonPrime) in r <==> nonPrime > 0
    ensures forall o :: o in r ==> o.products > 0
  {
    (if highTraffic > 0 then [HighTrafficLowConversionCount(highTraffic)] else [])
      + (if noBuyBox > 0 then [NoBuyBoxCount(noBuyBox)] else [])
      + (if nonPrime > 0 then [NonPrimeCount(nonPrime)] else [])
  }

  function Opportunities(t: map<string, seq<Cell>>, n: nat, q: Percentiles): seq<Opportunity>
    requires Rectangular(t, n) && HasOpportunityColumns(t)
  {
    OpportunitiesOf(CountTrue(HighTrafficMask(t, n, q)), CountTrue(NoBuyBoxMask(t, n)), CountTrue(NonPrimeMask(t, n, q)))
  }

  /** identify_opportunities (lines 172-218). */
  method IdentifyOpportunities(df: Frame, q: Percentiles) returns (opportunities: seq<Opportunity>)
    requires df.Valid() && HasOpportunityColumns(df.Table())
    ensures Rectangular(df.Table(), df.height)
    ensures opportunities == Opportunities(df.Table(), df.height, q)
  {
    df.TableFits();
    var t, n := df.Table(), df.height;
    opportunities := [];
    var highTraffic := CountTrue(HighTrafficMask(t, n, q));
    if highTraffic > 0 {
      opportunities := opportunities + [HighTrafficLowConversionCount(highTraffic)];
    }
    var noBuyBox := CountTrue(NoBuyBoxMask(t, n));
    if noBuyBox > 0 {
      opportunities := opportunities + [NoBuyBoxCount(noBuyBox)];
    }
    var nonPrime := CountTrue(NonPrimeMask(t, n, q));
    if nonPrime > 0 {
      opportunities := opportunities + [NonPrimeCount(nonPrime)];
    }
  }

  /** Each message is listed exactly when its count is positive, and carries one of the three counts. */
  lemma OpportunitiesOfShape(highTraffic: nat, noBuyBox: nat, nonPrime: nat)
    ensures var r := OpportunitiesOf(highTraffic, noBuyBox, nonPrime);
      ((exists o :: o in r && o.HighTrafficLowConversionCount?) <==> highTraffic > 0)
      && ((exists o :: o in r && o.NoBuyBoxCount?) <==> noBuyBox > 0)
      && ((exists o :: o in r && o.NonPrimeCount?) <==> nonPrime > 0)
      && (r == [] <==> highTraffic == 0 && noBuyBox == 0 && nonPrime == 0)
      && forall o :: o in r ==> o.products == highTraffic || o.products == noBuyBox || o.products == nonPrime
  {
  }

  /** A mask has a true entry exactly when it counts more than zero. */
  lemma {:induction false} CountTruePositive(m: seq<bool>)
    ensures CountTrue(m) > 0 <==> exists i :: 0 <= i < |m| && m[i]
    ensures CountTrue(m) <= |m|
  {
    if m != [] {
      var init := m[..|m| - 1];
      CountTruePositive(init);
      assert forall i :: 0 <= i < |init| ==> init[i] == m[i];
    }
  }

  /** The no-buy-box message appears exactly when some product has zero buy box and at least 50 sessions. */
  lemma NoBuyBoxReported(t: map<string, seq<Cell>>, n: nat, q: Percentiles)
    requires Rectangular(t, n) && HasOpportunityColumns(t)
    ensures (exists o :: o in Opportunities(t, n, q) && o.NoBuyBoxCount?) <==>
      exists i :: 0 <= i < n && NoBuyBox(t["buy_box_percentage"][i], t["sessions_total"][i])
  {
    var m := NoBuyBoxMask(t, n);
    CountTruePositive(m);
    OpportunitiesOfShape(CountTrue(HighTrafficMask(t, n, q)), CountTrue(m), CountTrue(NonPrimeMask(t, n, q)));
  }

  /** No opportunity is listed exactly when no product passes any of the three filters. */
  lemma NoOpportunitiesIff(t: map<string, seq<Cell>>, n: nat, q: Percentiles)
    requires Rectangular(t, n) && HasOpportunityColumns(t)
    ensures Opportunities(t, n, q) == [] <==>
      (forall i :: 0 <= i < n ==> !HighTrafficMask(t, n, q)[i] && !NoBuyBoxMask(t, n)[i] && !NonPrimeMask(t, n, q)[i])
  {
    CountTruePositive(HighTrafficMask(t, n, q));
    CountTruePositive(NoBuyBoxMask(t, n));
    CountTruePositive(NonPrimeMask(t, n, q));
    OpportunitiesOfShape(CountTrue(HighTrafficMask(t, n, q)), CountTrue(NoBuyBoxMask(t, n)), CountTrue(NonPrimeMask(t, n, q)));
  }

  /** Every count is at most the number of products. */
  lemma OpportunityCountsBounded(t: map<string, seq<Cell>>, n: nat, q: Percentiles)
    requires Rectangular(t, n) && HasOpportunityColumns(t)
    ensures forall o :: o in Opportunities(t, n, q) ==> 0 < o.products <= n
  {
    CountTruePositive(HighTrafficMask(t, n, q));
    CountTruePositive(NoBuyBoxMask(t, n));
    CountTruePositive(NonPrimeMask(t, n, q));
    OpportunitiesOfShape(CountTrue(HighTrafficMask(t, n, q)), CountTrue(NoBuyBoxMask(t, n)), CountTrue(NonPrimeMask(t, n, q)));
  }

  /** A product with missing sessions is in neither traffic filter (NaN compares false). */
  lemma MissingSessionsExcluded(buyBox: Cell, conversion: Cell, q: Percentiles)
    ensures !HighTrafficLowConversion(Missing, conversion, q.sessionsQ75, q.conversionQ25)
    ensures !NoBuyBox(buyBox, Missing)
  {
  }

  // ---------------------------------------------------------------- save_results

  /** Line 221: '.csv' deleted, spaces made '_', parentheses deleted. */
  function OutputPrefix(input: string): string
  {
    RemoveChars(ReplaceChar(RemoveAll(input, ".csv"), ' ', '_'), {'(', ')'})
  }

  function CleanedFile(input: string): string
  {
    OutputPrefix(input) + "_cleaned.csv"
  }

  function SummaryFile(input: string): string
  {
    OutputPrefix(input) + "_summary.md"
  }

  predicate PlainName(s: string)
  {
    forall i :: 0 <= i < |s| ==> s[i] != '.' && s[i] != ' ' && s[i] != '(' && s[i] != ')'
  }

  /** "<base> (<n>).csv" becomes "<base>_<n>" for a base without '.', spaces or parentheses. */
  lemma CopySuffixPrefix(base: string, n: string)
    requires PlainName(base) && PlainName(n)
    ensures OutputPrefix(base + (" (" + (n + ").csv"))) == base + "_" + n
  {
    var mid := [' '] + (['('] + (n + [')']));
    assert base + (" (" + (n + ").csv")) == (base + mid) + ".csv";
    assert forall i :: 0 <= i < |base + mid| ==> (base + mid)[i] != '.';
    BusinessReport.RemoveLastExtension(base + mid);
    var spaced := ReplaceChar(base + mid, ' ', '_');
    assert spaced == base + (['_'] + (['('] + (n + [')'])));
    ParenthesesDeleted(base, n);
    assert base + (['_'] + n) == base + "_" + n;
  }

  lemma ParenthesesDeleted(base: string, n: string)
    requires PlainName(base) && PlainName(n)
    ensures RemoveChars(base + (['_'] + (['('] + (n + [')']))), {'(', ')'}) == base + (['_'] + n)
  {
    var drop := {'(', ')'};
    RemoveCharsAppend(base, ['_'] + (['('] + (n + [')'])), drop);
    RemoveCharsUntouched(base, drop);
    RemoveCharsKept('_', ['('] + (n + [')']), drop);
    RemoveCharsDropped('(', n + [')'], drop);
    RemoveCharsAppend(n, [')'], drop);
    RemoveCharsUntouched(n, drop);
    RemoveCharsDropped(')', [], drop);
    assert [')'] == [')'] + [];
  }

  /** The file name of main (line 255) gives the prefix BusinessReport-23-07-2025_1,
    * so the cleaned data goes to BusinessReport-23-07-2025_1_cleaned.csv. */
  lemma MainPrefix(input: string, base: string)
    requires base == "BusinessReport-23-07-2025" && input == base + (" (" + ("1" + ").csv"))
    ensures OutputPrefix(input) == base + "_1"
    ensures CleanedFile(input) == base + "_1" + "_cleaned.csv"
  {
    assert PlainName(base);
    CopySuffixPrefix(base, "1");
  }

  // ---------------------------------------------------------------- main

  /** The table main has after renaming and clean_data_types, from the loaded labels and columns. */
  ghost function CleanedFrom(labels: seq<string>, columns: seq<seq<Cell>>): map<string, seq<Cell>>
    requires |labels| == |columns|
  {
    DataTypesCleaned(TableOf(BusinessReport.Renamed(labels), columns))
  }

  /** After cleaning, sessions and sales hold no text, so with the input columns
    * present calculate_metrics raises exactly when the loaded units column holds text. */
  lemma CleanedRaisesOnUnits(t: map<string, seq<Cell>>)
    requires "sessions_total" in t && "units_ordered" in t && "sales_total" in t && "sku" in t
    ensures MetricsRaise(DataTypesCleaned(t)) <==> HoldsText(t["units_ordered"])
  {
    DataTypesCleanedMeans(t, "sessions_total");
    DataTypesCleanedMeans(t, "sales_total");
    DataTypesCleanedMeans(t, "units_ordered");
  }

  /** The cleaning steps of main: the labels are renamed and the listed columns converted. */
  method CleanReport(df: Frame)
    requires df.Valid()
    modifies df
    ensures df.Valid() && df.height == old(df.height) && df.labels == BusinessReport.Renamed(old(df.labels))
    ensures df.Table() == CleanedFrom(old(df.labels), old(df.columns))
  {
    BusinessReport.CleanColumnNames(df);
    assert df.labels == BusinessReport.Renamed(old(df.labels));
    df.TableIsTableOf();
    CleanDataTypes(df);
  }

  /** main (lines 253-285) up to the opportunity list; the percentiles are
    * parameters and None stands for the KeyError or TypeError that main catches:
    * an input of calculate_metrics absent or holding text, or no buy-box column
    * for identify_opportunities. */
  method AnalyzeNewReport(df: Frame, q: Percentiles) returns (opportunities: Option<seq<Opportunity>>)
    requires df.Valid()
    modifies df
    ensures df.Valid() && df.height == old(df.height)
    ensures Rectangular(CleanedFrom(old(df.labels), old(df.columns)), old(df.height))
    ensures opportunities.None? <==> (MetricsRaise(CleanedFrom(old(df.labels), old(df.columns)))
      || "buy_box_percentage" !in CleanedFrom(old(df.labels), old(df.columns)))
    ensures opportunities.Some? ==> df.Table() == WithMetrics(CleanedFrom(old(df.labels), old(df.columns)), old(df.height))
    ensures opportunities.Some? ==> (HasOpportunityColumns(df.Table())
      && opportunities.value == Opportunities(df.Table(), df.height, q))
  {
    CleanReport(df);
    df.TableFits();
    ghost var cleaned := df.Table();
    // main catches both failures alike, so the buy-box column, which only
    // identify_opportunities reads, may be looked for first.
    if !df.Has("buy_box_percentage") {
      return None;
    }
    var raised := CalculateMetrics(df);
    if raised {
      return None;
    }
    assert "buy_box_percentage" in cleaned;
    var found := IdentifyOpportunities(df, q);
    return Some(found);
  }
}
