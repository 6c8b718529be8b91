/** analyze_shipment_efficiency.py: one result per date column of the hours
  * sheet, read from its shipments, packing-hours and shipments-per-hour rows,
  * against a target of 18 shipments per hour; then the summary over the days
  * that were worked. */
module ShipmentEfficiency {
  import opened Common
  import opened NumParse
  import opened Cells

  const Target: real := 18.0

  /** `float(v) if pd.notna(v) and v != 0 else 0`: a missing cell reads as 0,
    * a number as itself, text through float(), which may fail (None), a
    * boolean as 1 or 0. */
  function ReadAmount(c: Cell): (r: Option<real>)
    ensures c.Missing? ==> r == Some(0.0)
    ensures r.None? <==> c.Str? && ParseFloat(c.text).None?
    ensures c.Num? ==> r == Some(c.value)
  {
    match c
    case Missing => Some(0.0)
    case Num(x) => Some(x)
    case Str(t) => ParseFloat(t)
    case Flag(b) => Some(if b then 1.0 else 0.0)
  }

  /** The efficiency cell is compared with '' instead of 0: the empty text reads
    * as 0 here, where the other two rows would fail on it. */
  function ReadRate(c: Cell): (r: Option<real>)
    ensures c == Str("") ==> r == Some(0.0)
    ensures c != Str("") ==> r == ReadAmount(c)
  {
    if c == Str("") then Some(0.0) else ReadAmount(c)
  }

  lemma EmptyTextReadsDifferently()
    ensures ReadRate(Str("")) == Some(0.0) && ReadAmount(Str("")) == None
  {
    assert ParseInt("") == None;
  }

  datatype Status = NoWorkDay | AboveTarget | OnTarget | BelowTarget

  /** The status of a worked day, from the efficiency recorded in the sheet. */
  function StatusOf(efficiency: real): (s: Status)
    ensures s != NoWorkDay
    ensures s == AboveTarget <==> efficiency > Target
    ensures s == OnTarget <==> efficiency == Target
    ensures s == BelowTarget <==> efficiency < Target
  {
    if efficiency > Target then AboveTarget
    else if efficiency == Target then OnTarget
    else BelowTarget
  }

  /** The hours that would give exactly the target rate. */
  function TargetHours(shipments: real): real
  {
    shipments / Target
  }

  /** The change of hours that would reach the target rate. */
  function Adjustment(shipments: real, hours: real): real
  {
    TargetHours(shipments) - hours
  }

  /** At the target hours the rate is the target; the adjustment is positive
    * exactly when the day ran faster than the target. */
  lemma AdjustmentMeetsTarget(shipments: real, hours: real)
    ensures TargetHours(shipments) * Target == shipments
    ensures hours + Adjustment(shipments, hours) == TargetHours(shipments)
    ensures Adjustment(shipments, hours) > 0.0 <==> shipments > Target * hours
    ensures Adjustment(shipments, hours) == 0.0 <==> shipments == Target * hours
    ensures Adjustment(shipments, hours) < 0.0 <==> shipments < Target * hours
  {
  }

  /** One row of the results file. */
  datatype Day = Day(date: string, shipments: int, hours: real, efficiency: real,
                     targetHours: real, adjustment: real, status: Status)

  /** One date column of the sheet: its header and its three cells. */
  datatype DateColumn = DateColumn(date: string, shipments: Cell, hours: Cell, efficiency: Cell)

  /** The body of the loop for one date: None when a conversion raised. */
  function DayOf(col: DateColumn): (r: Option<Day>)
    ensures r.None? <==>
      ReadAmount(col.shipments).None? || ReadAmount(col.hours).None? || ReadRate(col.efficiency).None?
    ensures r.Some? ==> r.value.date == col.date && r.value.hours == ReadAmount(col.hours).value
    ensures r.Some? ==> (r.value.status == NoWorkDay <==>
      ReadAmount(col.shipments).value == 0.0 || ReadAmount(col.hours).value == 0.0)
    ensures r.Some? && r.value.status == NoWorkDay ==>
      r.value.shipments >= 0 && r.value.efficiency == 0.0 && r.value.targetHours == 0.0 && r.value.adjustment == 0.0
    ensures r.Some? && r.value.status != NoWorkDay ==>
      r.value.status == StatusOf(ReadRate(col.efficiency).value)
      && r.value.shipments == Truncate(ReadAmount(col.shipments).value)
  {
    var s := ReadAmount(col.shipments);
    var h := ReadAmount(col.hours);
    var e := ReadRate(col.efficiency);
    if s.None? || h.None? || e.None? then None
    else if s.value == 0.0 || h.value == 0.0 then
      Some(Day(col.date, if s.value > 0.0 then Truncate(s.value) else 0, h.value, 0.0, 0.0, 0.0, NoWorkDay))
    else
      Some(Day(col.date, Truncate(s.value), h.value, RoundTo(e.value, 2),
               RoundTo(TargetHours(s.value), 2), RoundTo(Adjustment(s.value, h.value), 2),
               StatusOf(e.value)))
  }

  /** The rounded figures of a worked day are within 0.005 of the exact ones. */
  lemma WorkedDayRounding(col: DateColumn)
    requires DayOf(col).Some? && DayOf(col).value.status != NoWorkDay
    ensures var d := DayOf(col).value;
      var s := ReadAmount(col.shipments).value;
      var e := ReadRate(col.efficiency).value;
      && e - 0.005 <= d.efficiency <= e + 0.005
      && TargetHours(s) - 0.005 <= d.targetHours <= TargetHours(s) + 0.005
      && Adjustment(s, d.hours) - 0.005 <= d.adjustment <= Adjustment(s, d.hours) + 0.005
  {
    var s := ReadAmount(col.shipments).value;
    assert Unscale(0.5, 2) == 0.005;
    RoundToClose(ReadRate(col.efficiency).value, 2);
    RoundToClose(TargetHours(s), 2);
    RoundToClose(Adjustment(s, DayOf(col).value.hours), 2);
  }

  /** The results list: one entry per date column whose cells converted, in column order. */
  function Days(cols: seq<DateColumn>): (r: seq<Day>)
    ensures |r| <= |cols|
  {
    if cols == [] then []
    else
      var rest := Days(cols[..|cols| - 1]);
      match DayOf(cols[|cols| - 1])
      case Some(d) => rest + [d]
      case None => rest
  }

  predicate Fails(col: DateColumn)
  {
    DayOf(col).None?
  }

  /** Exactly the columns whose conversion failed are missing from the results. */
  lemma {:induction false} DaysSkipOnlyFailures(cols: seq<DateColumn>)
    ensures |Days(cols)| + Count(cols, Fails) == |cols|
  {
    if cols != [] {
      DaysSkipOnlyFailures(cols[..|cols| - 1]);
    }
  }

  /** Columns processed in two runs give the concatenated results. */
  lemma {:induction false} DaysAppend(a: seq<DateColumn>, b: seq<DateColumn>)
    ensures Days(a + b) == Days(a) + Days(b)
    decreases |b|
  {
    if b == [] {
      assert a + b == a;
    } else {
      assert (a + b)[..|a + b| - 1] == a + b[..|b| - 1];
      DaysAppend(a, b[..|b| - 1]);
    }
  }

  /** The loop over the date columns (lines 36-86). */
  method AnalyzeShipmentEfficiency(cols: seq<DateColumn>) returns (results: seq<Day>)
    ensures results == Days(cols)
  {
    results := [];
    for i := 0 to |cols|
      invariant results == Days(cols[..i])
    {
      assert cols[..i + 1][..i] == cols[..i];
      var day := AnalyzeColumn(cols[i]);
      if day.Some? {
        results := results + [day.value];
      }
    }
    assert cols[..|cols|] == cols;
  }

  /** One pass of the loop body (lines 38-86): None where the loop continues
    * after a failed conversion. */
  method AnalyzeColumn(col: DateColumn) returns (day: Option<Day>)
    ensures day == DayOf(col)
  {
    var s := ReadAmount(col.shipments);
    var h := ReadAmount(col.hours);
    var e := ReadRate(col.efficiency);
    if s.None? || h.None? || e.None? {
      return None;
    }
    if s.value == 0.0 || h.value == 0.0 {
      return Some(Day(col.date, if s.value > 0.0 then Truncate(s.value) else 0, h.value, 0.0, 0.0, 0.0, NoWorkDay));
    }
    var targetHours := TargetHours(s.value);
    var adjustment := Adjustment(s.value, h.value);
    var status: Status;
    if e.value > Target {
      status := AboveTarget;
    } else if e.value == Target {
      status := OnTarget;
    } else {
      status := BelowTarget;
    }
    day := Some(Day(col.date, Truncate(s.value), h.value, RoundTo(e.value, 2),
                    RoundTo(targetHours, 2), RoundTo(adjustment, 2), status));
  }

  // ---------------------------------------------------------------- summary

  predicate Worked(d: Day)
  {
    d.status != NoWorkDay
  }

  function WorkingDays(days: seq<Day>): (w: seq<Day>)
    ensures forall i :: 0 <= i < |w| ==> Worked(w[i]) && w[i] in days
    ensures forall i :: 0 <= i < |days| && Worked(days[i]) ==> days[i] in w
  {
    Filter(days, Worked)
  }

  function TotalShipments(w: seq<Day>): int
  {
    if w == [] then 0 else TotalShipments(w[..|w| - 1]) + w[|w| - 1].shipments
  }

  /** The sum of one real column of the results. */
  function Total(w: seq<Day>, f: Day -> real): real
  {
    Sum(seq(|w|, i requires 0 <= i < |w| => f(w[i])))
  }

  datatype Counts = Counts(above: nat, on: nat, below: nat)

  /** The counts as lines 105-107 compute them: the ROUNDED efficiency compared with 18. */
  function RoundedCounts(w: seq<Day>): Counts
  {
    Counts(Count(w, (d: Day) => d.efficiency > Target),
           Count(w, (d: Day) => d.efficiency == Target),
           Count(w, (d: Day) => d.efficiency < Target))
  }

  /** The counts taken from the Status column, which was decided on the unrounded efficiency. */
  function StatusCounts(w: seq<Day>): (c: Counts)
    ensures c.above == Count(w, (d: Day) => d.status == AboveTarget)
    ensures c.on == Count(w, (d: Day) => d.status == OnTarget)
    ensures c.below == Count(w, (d: Day) => d.status == BelowTarget)
  {
    Counts(Count(w, (d: Day) => d.status == AboveTarget),
           Count(w, (d: Day) => d.status == OnTarget),
           Count(w, (d: Day) => d.status == BelowTarget))
  }

  /** The status counts split the working days. */
  lemma StatusCountsPartition(days: seq<Day>)
    ensures var w := WorkingDays(days); var c := StatusCounts(w);
      c.above + c.on + c.below == |w|
  {
    var w := WorkingDays(days);
    CountPartition(w, (d: Day) => d.status == AboveTarget, (d: Day) => d.status == OnTarget,
                   (d: Day) => d.status == BelowTarget);
  }

  /** The rounded counts split the working days too. */
  lemma RoundedCountsPartition(w: seq<Day>)
    ensures var c := RoundedCounts(w); c.above + c.on + c.below == |w|
  {
    CountPartition(w, (d: Day) => d.efficiency > Target, (d: Day) => d.efficiency == Target,
                   (d: Day) => d.efficiency < Target);
  }

  /** A day recorded at 18.001 shipments per hour has status Above Target, but
    * its rounded efficiency 18.0 is counted as on target. */
  lemma RoundedCountsDisagree()
    ensures var d := DayOf(DateColumn("d", Num(18.0), Num(1.0), Num(18.001))).value;
      d.status == AboveTarget && d.efficiency == 18.0
      && RoundedCounts([d]) == Counts(0, 1, 0) && StatusCounts([d]) == Counts(1, 0, 0)
  {
    var d := DayOf(DateColumn("d", Num(18.0), Num(1.0), Num(18.001))).value;
    assert Scale(18.001, 2) == 1800.1;
    assert (1800.1).Floor == 1800;
    assert RoundHalfEven(1800.1) == 1800;
    assert Unscale(1800.0, 2) == 18.0;
    assert d.efficiency == 18.0;
    assert [d][..0] == [];
  }

  /** The closing message, by the sign of the summed adjustments. */
  datatype Overall = NeedMoreHours | CouldReduceHours | AlreadyOptimal

  function OverallOf(totalAdjustment: real): (o: Overall)
    ensures o == NeedMoreHours <==> totalAdjustment > 0.0
    ensures o == CouldReduceHours <==> totalAdjustment < 0.0
    ensures o == AlreadyOptimal <==> totalAdjustment == 0.0
  {
    if totalAdjustment > 0.0 then NeedMoreHours
    else if totalAdjustment < 0.0 then CouldReduceHours
    else AlreadyOptimal
  }

  datatype Summary = Summary(workingDays: nat, totalShipments: int, totalHours: real,
                             totalTarget: real, totalAdjustment: real, averageEfficiency: real,
                             counts: Counts, overall: Overall)

  /** The summary statistics of lines 92-124, printed only when some day was worked. */
  function Summarize(days: seq<Day>): (r: Option<Summary>)
    ensures r.None? <==> WorkingDays(days) == []
    ensures r.Some? ==> r.value.workingDays == |WorkingDays(days)| > 0
    ensures r.Some? ==>
      r.value.counts.above + r.value.counts.on + r.value.counts.below == r.value.workingDays
    ensures r.Some? ==> r.value.counts == StatusCounts(WorkingDays(days))
    ensures r.Some? ==> r.value.totalShipments == TotalShipments(WorkingDays(days))
    ensures r.Some? ==> r.value.totalHours == Total(WorkingDays(days), (d: Day) => d.hours)
    ensures r.Some? ==> r.value.totalTarget == Total(WorkingDays(days), (d: Day) => d.targetHours)
    ensures r.Some? ==> r.value.totalAdjustment == Total(WorkingDays(days), (d: Day) => d.adjustment)
    ensures r.Some? ==>
      r.value.averageEfficiency == Total(WorkingDays(days), (d: Day) => d.efficiency) / r.value.workingDays as real
    ensures r.Some? ==> r.value.overall == OverallOf(r.value.totalAdjustment)
  {
    var w := WorkingDays(days);
    if w == [] then None
    else
      StatusCountsPartition(days);
      var adjustment := Total(w, (d: Day) => d.adjustment);
      Some(Summary(|w|, TotalShipments(w), Total(w, (d: Day) => d.hours),
                   Total(w, (d: Day) => d.targetHours), adjustment,
                   Total(w, (d: Day) => d.efficiency) / |w| as real,
                   StatusCounts(w), OverallOf(adjustment)))
  }
}
