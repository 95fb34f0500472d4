/** The calculator window of archive/script_v4.py: the same daily projection
    as the current version, two result labels instead of three, and an
    `update_plot` that builds the x and y coordinates locally with a coarser
    adjustment of the stride. */
module CalculatorV4 {
  import opened Common
  import opened Projection
  import opened Resampler

  /** What the two result labels show: the final amount and the total
      interest (number formatting is not modelled). */
  datatype Labels = Labels(finalAmount: real, totalInterest: real)

  /** The coordinates passed to one plot call. */
  datatype Curve = Curve(xs: seq<real>, ys: seq<real>)

  /** What the axes show: the styled empty axes of `setup_initial_plot`, or a
      drawn curve. */
  datatype Chart = Placeholder | Drawn(curve: Curve)

  /** The labels after a calculation on `series`: the last amount and what it
      adds to the principal. */
  function LabelsOf(series: seq<Sample>, principal: real): (l: Labels)
    requires |series| > 0
    ensures l.finalAmount == series[|series| - 1].amount
    ensures l.finalAmount == principal + l.totalInterest
  {
    var s := Summarize(series, principal);
    Labels(s.finalAmount, s.totalInterest)
  }

  /** The curve `update_plot` draws for a non-empty series, or None when
      `period_map[period]` raises `KeyError` (an unknown period with any
      point after the origin to draw). */
  function PlottedCurve(data: seq<Sample>, period: string): Option<Curve>
    requires |data| >= 1
  {
    match DaysIn(period)
    case Some(unit) =>
      var points := Resampled(data, StrideV4(|data|, PeriodStep(period)), unit);
      Some(Curve(Xs(points), Ys(points)))
    case None =>
      if |data| == 1 then Some(Curve([0.0], [data[0].amount])) else None
  }

  /** For a known period on a day-indexed series, the curve starts at the
      origin with the first amount, ends at the last day in display units,
      has x strictly increasing, and pairs each x with the amount of that
      day. */
  lemma PlottedCurveShape(data: seq<Sample>, period: string)
    requires |data| >= 1 && DayIndexed(data) && DaysIn(period).Some?
    ensures var c := PlottedCurve(data, period).value;
              var unit := DaysIn(period).value;
              |c.xs| == |c.ys| >= 1 &&
              c.xs[0] == 0.0 && c.ys[0] == data[0].amount &&
              c.xs[|c.xs| - 1] == (|data| - 1) as real / unit as real &&
              (forall j, k :: 0 <= j < k < |c.xs| ==> c.xs[j] < c.xs[k]) &&
              (forall k :: 0 <= k < |c.xs| ==>
                 (exists d :: 0 <= d < |data| && c.xs[k] == d as real / unit as real && c.ys[k] == data[d].amount))
  {
    var unit := DaysIn(period).value;
    var stride := StrideV4(|data|, PeriodStep(period));
    var p := Resampled(data, stride, unit);
    var c := PlottedCurve(data, period).value;
    ResampledPoints(data, stride, unit);
    assert c == Curve(Xs(p), Ys(p));
    forall j, k | 0 <= j < k < |c.xs| ensures c.xs[j] < c.xs[k] {
      assert p[j].day < p[k].day;
      DivideMonotone(p[j].day, p[k].day, unit);
    }
    forall k | 0 <= k < |c.xs|
      ensures exists d :: 0 <= d < |data| && c.xs[k] == d as real / unit as real && c.ys[k] == data[d].amount
    {
      var d := Indices(|data|, stride)[k];
      assert c.xs[k] == d as real / unit as real && c.ys[k] == data[d].amount;
    }
  }

  lemma DivideMonotone(a: int, b: int, unit: nat)
    requires a < b && unit >= 1
    ensures a as real / unit as real < b as real / unit as real
  {
    RealDivAbove(b as real, unit as real, a as real / unit as real);
  }

  class VisualCompoundInterestCalculator {
    var plotData: seq<Sample>
    var labels: Labels
    var chart: Chart

    ghost predicate Valid()
      reads this
    {
      DayIndexed(plotData)
    }

    constructor ()
      ensures Valid()
      ensures plotData == [] && labels == Labels(0.0, 0.0) && chart == Placeholder
    {
      plotData := [];
      labels := Labels(0.0, 0.0);
      chart := Placeholder;
    }

    /** Redraw the chart for `period`. With no data `setup_initial_plot`
        clears the axes and shows the placeholder text instead of a curve.
        Returns false when `period_map[period]` raises `KeyError`; the chart
        is then untouched, as the axes are cleared only after the
        coordinates are built. */
    method UpdatePlot(period: string) returns (ok: bool)
      requires Valid()
      modifies this`chart
      ensures plotData == [] ==> ok && chart == Placeholder
      ensures plotData != [] ==> (ok <==> PlottedCurve(plotData, period).Some?)
      ensures plotData != [] && ok ==> chart == Drawn(PlottedCurve(plotData, period).value)
      ensures !ok ==> chart == old(chart)
    {
      if plotData == [] {
        chart := Placeholder;
        return true;
      }
      var curve := Coordinates(period);
      if curve.None? {
        return false;
      }
      chart := Drawn(curve.value);
      ok := true;
    }

    /** `x_data` and `y_data` of `update_plot`, or None for `KeyError`. */
    method Coordinates(period: string) returns (curve: Option<Curve>)
      requires Valid() && plotData != []
      ensures curve == PlottedCurve(plotData, period)
    {
      var n := |plotData|;
      var unitLength := DaysIn(period);
      var step := unitLength.GetOr(30);
      var numPoints := n / step;
      if numPoints > 1000 {
        step := n / 1000;
      }
      assert step == StrideV4(n, PeriodStep(period));
      var ok, xs, ys := StridedCoordinates(step, unitLength);
      if !ok {
        RestEmpty(n, step);
        return None;
      }
      curve := WithLastCoordinate(step, unitLength, xs, ys);
      if unitLength.None? {
        RestEmpty(n, step);
      }
    }

    /** The last sample, added after the loop when `last_day % step != 0`; it
        needs `period_map[period]` too. */
    method WithLastCoordinate(step: nat, unitLength: Option<nat>, xs: seq<real>, ys: seq<real>)
      returns (curve: Option<Curve>)
      requires Valid() && plotData != [] && step >= 1
      requires unitLength.Some? ==> unitLength.value >= 1
      requires unitLength.Some? ==>
                 var points := [Origin(plotData)] + Points(plotData, Range(step, |plotData|, step), unitLength.value);
                 xs == Xs(points) && ys == Ys(points)
      ensures unitLength.Some? ==>
                curve == Some(Curve(Xs(Resampled(plotData, step, unitLength.value)),
                                    Ys(Resampled(plotData, step, unitLength.value))))
      ensures unitLength.None? ==>
                (curve.None? <==> LastNeeded(|plotData|, step)) && (curve.Some? ==> curve.value == Curve(xs, ys))
    {
      var data := plotData;
      var n := |data|;
      var last := data[n - 1];
      assert last.day == n - 1;
      LastNeededCases(n, step);
      if last.day % step != 0 {
        if unitLength.None? {
          return None;
        }
        var unit := unitLength.value;
        ghost var done := Range(step, n, step);
        PointsAppend(data, done, n - 1, unit);
        var before := [Origin(data)] + Points(data, done, unit);
        CurveAppend(before, Point(last, unit));
        assert done + [n - 1] == Rest(n, step);
        assert [Origin(data)] + Points(data, Rest(n, step), unit) == before + [Point(last, unit)];
        return Some(Curve(xs + [last.day as real / unit as real], ys + [last.amount]));
      }
      assert Range(step, n, step) == Rest(n, step);
      curve := Some(Curve(xs, ys));
    }

    /** The origin and the `for` loop of `update_plot`: the sample at every
        multiple of `step`. The x coordinate needs `period_map[period]`, here
        `unitLength`; false when that lookup raises `KeyError`. */
    method StridedCoordinates(step: nat, unitLength: Option<nat>) returns (ok: bool, xs: seq<real>, ys: seq<real>)
      requires plotData != [] && step >= 1
      requires unitLength.Some? ==> unitLength.value >= 1
      ensures unitLength.Some? ==>
                (ok && var points := [Origin(plotData)] + Points(plotData, Range(step, |plotData|, step), unitLength.value);
                       xs == Xs(points) && ys == Ys(points))
      ensures unitLength.None? ==>
                (ok <==> Range(step, |plotData|, step) == []) && xs == [0.0] && ys == [plotData[0].amount]
    {
      var data := plotData;
      var n := |data|;
      xs, ys := [0.0], [data[0].amount];
      var i := step;
      ghost var done: seq<nat> := [];
      while i < n
        invariant step <= i
        invariant Range(step, n, step) == done + Range(i, n, step)
        invariant forall k :: 0 <= k < |done| ==> done[k] < n
        invariant unitLength.None? ==> i == step && done == [] && xs == [0.0] && ys == [data[0].amount]
        invariant unitLength.Some? ==>
                    xs == Xs([Origin(data)] + Points(data, done, unitLength.value)) &&
                    ys == Ys([Origin(data)] + Points(data, done, unitLength.value))
        decreases n - i
      {
        var sample := data[i];
        if unitLength.None? {
          return false, xs, ys;
        }
        var unit := unitLength.value;
        PointsAppend(data, done, i, unit);
        CurveAppend([Origin(data)] + Points(data, done, unit), Point(sample, unit));
        xs := xs + [sample.day as real / unit as real];
        ys := ys + [sample.amount];
        RangeAdvance(step, n, step, done, i);
        done := done + [i];
        i := i + step;
      }
      assert done == Range(step, n, step);
      ok := true;
    }

    /** Validate the (already parsed) inputs, rebuild `plot_data` with one
        entry per day, show the final amount and interest, and redraw the
        chart for `period`. */
    method Calculate(pow: Power, principal: real, ratePercent: real, frequency: string,
                     durationValue: real, durationUnit: string, period: string)
      returns (outcome: Outcome)
      requires Valid()
      modifies this
      ensures Valid()
      ensures outcome == InputError <==> InvalidInput(principal, ratePercent, TotalDays(durationValue, durationUnit))
      ensures outcome == InputError ==>
                plotData == old(plotData) && labels == old(labels) && chart == old(chart)
      ensures outcome != InputError && DaysPerPeriod(frequency).None? ==>
                outcome == CalculationError && plotData == [] && labels == old(labels) && chart == old(chart)
      ensures Accepted(principal, ratePercent, frequency, durationValue, durationUnit) ==>
                plotData == DailySeries(pow, principal, ratePercent, DaysPerPeriod(frequency).value,
                                        LastDay(TotalDays(durationValue, durationUnit)) + 1)
      ensures Accepted(principal, ratePercent, frequency, durationValue, durationUnit) ==>
                labels == LabelsOf(plotData, principal)
      ensures Accepted(principal, ratePercent, frequency, durationValue, durationUnit) ==>
                (outcome == Calculated <==> PlottedCurve(plotData, period).Some?)
      ensures Accepted(principal, ratePercent, frequency, durationValue, durationUnit) ==>
                chart == if outcome == Calculated then Drawn(PlottedCurve(plotData, period).value) else old(chart)
    {
      var totalDays := TotalDays(durationValue, durationUnit);
      if principal < 0.0 || ratePercent < 0.0 || totalDays <= 0.0 {
        return InputError;
      }
      var ratePerPeriod := ratePercent / 100.0;
      var daysPerPeriod := DaysPerPeriod(frequency);
      plotData := [];
      if daysPerPeriod.None? {
        // Dividing the first day by the missing period length raises TypeError.
        return CalculationError;
      }
      var perPeriod := daysPerPeriod.value;
      var last := LastDay(totalDays);
      FillPlotData(pow, principal, ratePerPeriod, perPeriod, last);
      assert ratePerPeriod * 100.0 == ratePercent;
      assert DayIndexed(plotData) && |plotData| == last + 1;
      var finalAmount := plotData[|plotData| - 1].amount;
      var totalInterest := finalAmount - principal;
      labels := Labels(finalAmount, totalInterest);
      assert labels == LabelsOf(plotData, principal);
      var ok := UpdatePlot(period);
      outcome := if ok then Calculated else CalculationError;
    }

    /** The daily loop of `calculate`, as in the current version. */
    method FillPlotData(pow: Power, principal: real, ratePerPeriod: real, daysPerPeriod: real, last: nat)
      requires daysPerPeriod > 0.0 && plotData == []
      modifies this`plotData
      ensures plotData == DailySeries(pow, principal, ratePerPeriod * 100.0, daysPerPeriod, last + 1)
    {
      var day := 0;
      while day < last + 1
        invariant 0 <= day <= last + 1
        invariant plotData == DailySeries(pow, principal, ratePerPeriod * 100.0, daysPerPeriod, day)
      {
        var currentPeriods := day as real / daysPerPeriod;
        var amount := principal * pow(1.0 + ratePerPeriod, currentPeriods);
        assert amount == Amount(pow, principal, ratePerPeriod * 100.0, daysPerPeriod, day);
        DailySeriesAppend(pow, principal, ratePerPeriod * 100.0, daysPerPeriod, day);
        plotData := plotData + [Sample(day, amount)];
        day := day + 1;
      }
    }
  }
}
