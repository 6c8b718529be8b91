/** analyze_shipment_efficiency_scenario2.py: the shipment-efficiency day
  * calculator with the hours split into packing and picking; total hours
  * are their sum, each day also records the two shares of the total, and
  * the summary lists days whose picking share is unusually high or low. */
module ShipmentScenario2 {
  import opened Common
  import opened Cells
  import opened ShipmentEfficiency

  /** One row of the results file. */
  datatype MixDay = MixDay(date: string, shipments: int, packing: real, picking: real, total: real,
                           efficiency: real, targetHours: real, adjustment: real,
                           packingShare: real, pickingShare: real, status: Status)

  /** One date column of the sheet: its header and its four cells. */
  datatype MixColumn = MixColumn(date: string, shipments: Cell, packing: Cell, picking: Cell, efficiency: Cell)

  /** A part as a percentage of the total hours, 0 unless the total is positive (lines 71-72). */
  function Share(part: real, total: real): real
  {
    if total > 0.0 then part / total * 100.0 else 0.0
  }

  /** Before rounding, the packing and picking shares of a positive total add up to 100. */
  lemma SharesSumTo100(packing: real, picking: real)
    requires packing + picking > 0.0
    ensures Share(packing, packing + picking) + Share(picking, packing + picking) == 100.0
  {
    var t := packing + picking;
    assert packing / t + picking / t == (packing + picking) / t;
    assert (packing + picking) / t == 1.0;
  }

  /** With no negative hours, each share lies between 0 and 100. */
  lemma ShareBounds(part: real, other: real)
    requires part >= 0.0 && other >= 0.0
    ensures 0.0 <= Share(part, part + other) <= 100.0
  {
    var t := part + other;
    if t > 0.0 {
      assert part / t <= 1.0;
    }
  }

  /** The body of the loop for one date: None when a conversion raised. */
  function MixDayOf(col: MixColumn): (r: Option<MixDay>)
    ensures r.None? <==>
      ReadAmount(col.shipments).None? || ReadAmount(col.packing).None?
      || ReadAmount(col.picking).None? || ReadRate(col.efficiency).None?
    ensures r.Some? ==>
      r.value.date == col.date
      && r.value.packing == ReadAmount(col.packing).value
      && r.value.picking == ReadAmount(col.picking).value
      && r.value.total == r.value.packing + r.value.picking
    ensures r.Some? ==> (r.value.status == NoWorkDay <==>
      ReadAmount(col.shipments).value == 0.0 || r.value.total == 0.0)
    ensures r.Some? && r.value.status == NoWorkDay ==>
      r.value.shipments >= 0 && r.value.efficiency == 0.0 && r.value.targetHours == 0.0
      && r.value.adjustment == 0.0 && r.value.packingShare == 0.0 && r.value.pickingShare == 0.0
    ensures r.Some? && r.value.status != NoWorkDay ==>
      r.value.status == StatusOf(ReadRate(col.efficiency).value)
      && r.value.shipments == Truncate(ReadAmount(col.shipments).value)
      && r.value.packingShare == RoundTo(Share(r.value.packing, r.value.total), 1)
      && r.value.pickingShare == RoundTo(Share(r.value.picking, r.value.total), 1)
  {
    var s := ReadAmount(col.shipments);
    var pack := ReadAmount(col.packing);
    var pick := ReadAmount(col.picking);
    var e := ReadRate(col.efficiency);
    if s.None? || pack.None? || pick.None? || e.None? then None
    else
      var total := pack.value + pick.value;
      if s.value == 0.0 || total == 0.0 then
        Some(MixDay(col.date, if s.value > 0.0 then Truncate(s.value) else 0, pack.value, pick.value, total,
                    0.0, 0.0, 0.0, 0.0, 0.0, NoWorkDay))
      else
        Some(MixDay(col.date, Truncate(s.value), pack.value, pick.value, total, RoundTo(e.value, 2),
                    RoundTo(TargetHours(s.value), 2), RoundTo(Adjustment(s.value, total), 2),
                    RoundTo(Share(pack.value, total), 1), RoundTo(Share(pick.value, total), 1),
                    StatusOf(e.value)))
  }

  /** On a worked day with positive total hours, the two rounded shares add
    * up to 100 within 0.1. */
  lemma RoundedSharesNear100(col: MixColumn)
    requires MixDayOf(col).Some? && MixDayOf(col).value.status != NoWorkDay
    requires MixDayOf(col).value.total > 0.0
    ensures var d := MixDayOf(col).value;
      99.9 <= d.packingShare + d.pickingShare <= 100.1
  {
    var d := MixDayOf(col).value;
    assert Unscale(0.5, 1) == 0.05;
    SharesSumTo100(d.packing, d.picking);
    RoundToClose(Share(d.packing, d.total), 1);
    RoundToClose(Share(d.picking, d.total), 1);
  }

  /** The results list: one entry per date column whose cells converted, in column order. */
  function MixDays(cols: seq<MixColumn>): (r: seq<MixDay>)
    ensures |r| <= |cols|
  {
    if cols == [] then []
    else
      var rest := MixDays(cols[..|cols| - 1]);
      match MixDayOf(cols[|cols| - 1])
      case Some(d) => rest + [d]
      case None => rest
  }

  predicate MixFails(col: MixColumn)
  {
    MixDayOf(col).None?
  }

  /** Exactly the columns whose conversion failed are missing from the results. */
  lemma {:induction false} MixDaysSkipOnlyFailures(cols: seq<MixColumn>)
    ensures |MixDays(cols)| + Count(cols, MixFails) == |cols|
  {
    if cols != [] {
      MixDaysSkipOnlyFailures(cols[..|cols| - 1]);
    }
  }

  /** The loop over the date columns (lines 40-111). */
  method AnalyzeShipmentEfficiencyEnhanced(cols: seq<MixColumn>) returns (results: seq<MixDay>)
    ensures results == MixDays(cols)
  {
    results := [];
    for i := 0 to |cols|
      invariant results == MixDays(cols[..i])
    {
      assert cols[..i + 1][..i] == cols[..i];
      var day := AnalyzeMixColumn(cols[i]);
      if day.Some? {
        results := results + [day.value];
      }
    }
    assert cols[..|cols|] == cols;
  }

  /** One pass of the loop body (lines 42-111): None where the loop continues
    * after a failed conversion. */
  method AnalyzeMixColumn(col: MixColumn) returns (day: Option<MixDay>)
    ensures day == MixDayOf(col)
  {
    var s := ReadAmount(col.shipments);
    var pack := ReadAmount(col.packing);
    var pick := ReadAmount(col.picking);
    var e := ReadRate(col.efficiency);
    if s.None? || pack.None? || pick.None? || e.None? {
      return None;
    }
    var total := pack.value + pick.value;
    if s.value == 0.0 || total == 0.0 {
      return Some(MixDay(col.date, if s.value > 0.0 then Truncate(s.value) else 0,
                         pack.value, pick.value, total, 0.0, 0.0, 0.0, 0.0, 0.0, NoWorkDay));
    }
    var targetHours := TargetHours(s.value);
    var adjustment := Adjustment(s.value, total);
    var packingShare := Share(pack.value, total);
    var pickingShare := Share(pick.value, total);
    var status: Status;
    if e.value > Target {
      status := AboveTarget;
    } else if e.value == Target {
      status := OnTarget;
    } else {
      status := BelowTarget;
    }
    day := Some(MixDay(col.date, Truncate(s.value), pack.value, pick.value, total,
                       RoundTo(e.value, 2), RoundTo(targetHours, 2), RoundTo(adjustment, 2),
                       RoundTo(packingShare, 1), RoundTo(pickingShare, 1), status));
  }

  // ---------------------------------------------------------------- summary

  predicate MixWorked(d: MixDay)
  {
    d.status != NoWorkDay
  }

  function MixWorkingDays(days: seq<MixDay>): (w: seq<MixDay>)
    ensures forall i :: 0 <= i < |w| ==> MixWorked(w[i]) && w[i] in days
    ensures forall i :: 0 <= i < |days| && MixWorked(days[i]) ==> days[i] in w
  {
    Filter(days, MixWorked)
  }

  /** The real-valued columns of the results file. */
  datatype Column = PackingHours | PickingHours | TotalHours | TargetTotalHours | HoursAdjustment
                  | CurrentEfficiency | PackingPercent | PickingPercent

  function Field(d: MixDay, c: Column): real
  {
    match c
    case PackingHours => d.packing
    case PickingHours => d.picking
    case TotalHours => d.total
    case TargetTotalHours => d.targetHours
    case HoursAdjustment => d.adjustment
    case CurrentEfficiency => d.efficiency
    case PackingPercent => d.packingShare
    case PickingPercent => d.pickingShare
  }

  /** The sum of one column over the given rows. */
  function MixTotal(w: seq<MixDay>, c: Column): real
  {
    if w == [] then 0.0 else MixTotal(w[..|w| - 1], c) + Field(w[|w| - 1], c)
  }

  /** The sum of the shipments column over the given rows. */
  function MixTotalShipments(w: seq<MixDay>): int
  {
    if w == [] then 0 else MixTotalShipments(w[..|w| - 1]) + w[|w| - 1].shipments
  }

  /** The total-hours column sums to the packing total plus the picking total. */
  lemma {:induction false} TotalHoursSplit(w: seq<MixDay>)
    requires forall i :: 0 <= i < |w| ==> HoursAddUp(w[i])
    ensures MixTotal(w, TotalHours) == MixTotal(w, PackingHours) + MixTotal(w, PickingHours)
  {
    if w != [] {
      TotalHoursSplit(w[..|w| - 1]);
    }
  }

  predicate HoursAddUp(d: MixDay)
  {
    d.total == d.packing + d.picking
  }

  /** Every row the loop produces has total == packing + picking. */
  lemma {:induction false} MixDaysTotals(cols: seq<MixColumn>)
    ensures forall i :: 0 <= i < |MixDays(cols)| ==> HoursAddUp(MixDays(cols)[i])
  {
    if cols != [] {
      var rest := MixDays(cols[..|cols| - 1]);
      MixDaysTotals(cols[..|cols| - 1]);
      var r := MixDays(cols);
      var last := MixDayOf(cols[|cols| - 1]);
      assert r == rest + (if last.Some? then [last.value] else []);
      forall i | 0 <= i < |r| ensures HoursAddUp(r[i]) {
        if i < |rest| {
          assert r[i] == rest[i];
        } else {
          assert r[i] == last.value;
        }
      }
    }
  }

  /** The counts as lines 130-132 compute them: the ROUNDED efficiency compared with 18. */
  function MixRoundedCounts(w: seq<MixDay>): Counts
  {
    Counts(Count(w, (d: MixDay) => d.efficiency > Target),
           Count(w, (d: MixDay) => d.efficiency == Target),
           Count(w, (d: MixDay) => d.efficiency < Target))
  }

  /** The rounded counts split the working days too. */
  lemma MixRoundedCountsPartition(w: seq<MixDay>)
    ensures var c := MixRoundedCounts(w); c.above + c.on + c.below == |w|
  {
    CountPartition(w, (d: MixDay) => d.efficiency > Target, (d: MixDay) => d.efficiency == Target,
                   (d: MixDay) => d.efficiency < Target);
  }

  /** A day recorded at 17.999 shipments per hour has status Below Target, but
    * its rounded efficiency 18.0 is counted as on target. */
  lemma MixRoundedCountsDisagree()
    ensures var d := MixDayOf(MixColumn("d", Num(18.0), Num(0.5), Num(0.5), Num(17.999))).value;
      d.status == BelowTarget && d.efficiency == 18.0
      && MixRoundedCounts([d]) == Counts(0, 1, 0) && MixStatusCounts([d]) == Counts(0, 0, 1)
  {
    var d := MixDayOf(MixColumn("d", Num(18.0), Num(0.5), Num(0.5), Num(17.999))).value;
    assert Scale(17.999, 2) == 1799.9;
    assert (1799.9).Floor == 1799;
    assert RoundHalfEven(1799.9) == 1800;
    assert Unscale(1800.0, 2) == 18.0;
    assert d.efficiency == 18.0;
    assert [d][..0] == [];
  }

  /** The counts taken from the Status column, which was decided on the unrounded efficiency. */
  function MixStatusCounts(w: seq<MixDay>): (c: Counts)
    ensures c.above == Count(w, (d: MixDay) => d.status == AboveTarget)
    ensures c.on == Count(w, (d: MixDay) => d.status == OnTarget)
    ensures c.below == Count(w, (d: MixDay) => d.status == BelowTarget)
  {
    Counts(Count(w, (d: MixDay) => d.status == AboveTarget),
           Count(w, (d: MixDay) => d.status == OnTarget),
           Count(w, (d: MixDay) => d.status == BelowTarget))
  }

  /** On working days only, the status counts split the days. */
  lemma CountPartitionOf(w: seq<MixDay>)
    ensures (forall i :: 0 <= i < |w| ==> w[i].status != NoWorkDay) ==>
      Count(w, (d: MixDay) => d.status == AboveTarget) + Count(w, (d: MixDay) => d.status == OnTarget)
      + Count(w, (d: MixDay) => d.status == BelowTarget) == |w|
  {
    if forall i :: 0 <= i < |w| ==> w[i].status != NoWorkDay {
      CountPartition(w, (d: MixDay) => d.status == AboveTarget, (d: MixDay) => d.status == OnTarget,
                     (d: MixDay) => d.status == BelowTarget);
    }
  }

  function Max(a: real, b: real): real
  {
    if a >= b then a else b
  }

  /** Days whose picking share exceeds the average by more than 10 points (line 159). */
  function HighPickingDays(w: seq<MixDay>, average: real): seq<MixDay>
  {
    Filter(w, (d: MixDay) => d.pickingShare > average + 10.0)
  }

  /** Days whose picking share is below max(0, average − 10) (line 160). */
  function LowPickingDays(w: seq<MixDay>, average: real): seq<MixDay>
  {
    Filter(w, (d: MixDay) => d.pickingShare < Max(0.0, average - 10.0))
  }

  /** No day is both unusually high and unusually low, once the average is
    * at least −10 (an average of shares is never negative without negative hours). */
  lemma UnusualDaysDisjoint(w: seq<MixDay>, average: real)
    requires average >= -10.0
    ensures forall d :: d in HighPickingDays(w, average) ==> d !in LowPickingDays(w, average)
  {
    forall d | d in HighPickingDays(w, average)
      ensures d !in LowPickingDays(w, average)
    {
      var h := HighPickingDays(w, average);
      var i :| 0 <= i < |h| && h[i] == d;
      assert d.pickingShare > average + 10.0;
    }
  }

  /** Every day on either list is a working day. */
  lemma UnusualDaysAreWorked(days: seq<MixDay>, average: real)
    ensures var w := MixWorkingDays(days);
      (forall d :: d in HighPickingDays(w, average) ==> MixWorked(d) && d in days)
      && (forall d :: d in LowPickingDays(w, average) ==> MixWorked(d) && d in days)
  {
    var w := MixWorkingDays(days);
    forall d | d in HighPickingDays(w, average) ensures MixWorked(d) && d in days {
      var h := HighPickingDays(w, average);
      var i :| 0 <= i < |h| && h[i] == d;
      var j :| 0 <= j < |w| && w[j] == d;
    }
    forall d | d in LowPickingDays(w, average) ensures MixWorked(d) && d in days {
      var l := LowPickingDays(w, average);
      var i :| 0 <= i < |l| && l[i] == d;
      var j :| 0 <= j < |w| && w[j] == d;
    }
  }

  datatype MixSummary = MixSummary(workingDays: nat, totalShipments: int, totalPacking: real, totalPicking: real,
                                   totalHours: real, totalTarget: real, totalAdjustment: real,
                                   averageEfficiency: real, averagePacking: real, averagePicking: real,
                                   counts: Counts, overall: Overall,
                                   highPicking: seq<MixDay>, lowPicking: seq<MixDay>)

  /** The summary of lines 113-172, produced only when some day was worked. */
  function MixSummarize(days: seq<MixDay>): (r: Option<MixSummary>)
    ensures r.None? <==> MixWorkingDays(days) == []
    ensures r.Some? ==> r.value.workingDays == |MixWorkingDays(days)| > 0
    ensures r.Some? ==>
      r.value.counts.above + r.value.counts.on + r.value.counts.below == r.value.workingDays
    ensures r.Some? ==> r.value.counts == MixStatusCounts(MixWorkingDays(days))
    ensures r.Some? ==> r.value.totalShipments == MixTotalShipments(MixWorkingDays(days))
    ensures r.Some? ==> var w := MixWorkingDays(days);
      r.value.totalPacking == MixTotal(w, PackingHours) && r.value.totalPicking == MixTotal(w, PickingHours)
      && r.value.totalHours == MixTotal(w, TotalHours) && r.value.totalTarget == MixTotal(w, TargetTotalHours)
      && r.value.totalAdjustment == MixTotal(w, HoursAdjustment)
    ensures r.Some? ==> var w := MixWorkingDays(days); var n := |w| as real;
      r.value.averageEfficiency == MixTotal(w, CurrentEfficiency) / n
      && r.value.averagePacking == MixTotal(w, PackingPercent) / n
      && r.value.averagePicking == MixTotal(w, PickingPercent) / n
    ensures r.Some? ==> r.value.overall == OverallOf(r.value.totalAdjustment)
    ensures r.Some? ==>
      r.value.highPicking == HighPickingDays(MixWorkingDays(days), r.value.averagePicking)
      && r.value.lowPicking == LowPickingDays(MixWorkingDays(days), r.value.averagePicking)
  {
    var w := MixWorkingDays(days);
    if w == [] then None
    else
      CountPartitionOf(w);
      var n := |w| as real;
      var adjustment := MixTotal(w, HoursAdjustment);
      var averagePicking := MixTotal(w, PickingPercent) / n;
      Some(MixSummary(|w|, MixTotalShipments(w), MixTotal(w, PackingHours), MixTotal(w, PickingHours),
                      MixTotal(w, TotalHours), MixTotal(w, TargetTotalHours),
                      adjustment, MixTotal(w, CurrentEfficiency) / n,
                      MixTotal(w, PackingPercent) / n, averagePicking,
                      MixStatusCounts(w), OverallOf(adjustment),
                      HighPickingDays(w, averagePicking), LowPickingDays(w, averagePicking)))
  }

  /** In the summary of the loop's results, total hours are packing plus picking hours. */
  lemma SummaryHoursSplit(cols: seq<MixColumn>)
    requires MixSummarize(MixDays(cols)).Some?
    ensures var t := MixSummarize(MixDays(cols)).value;
      t.totalHours == t.totalPacking + t.totalPicking
  {
    var days := MixDays(cols);
    MixDaysTotals(cols);
    var w := MixWorkingDays(days);
    forall i | 0 <= i < |w| ensures HoursAddUp(w[i]) {
      var j :| 0 <= j < |days| && days[j] == w[i];
    }
    TotalHoursSplit(w);
  }
}
