/** The calculator window of script.py, reduced to its state: the daily
    series `plot_data`, the drawn points `current_plot_info` and what the three
    result labels show. Entry contents arrive already parsed; the power
    function is a parameter. */
module Calculator {
  import opened Common
  import opened Projection
  import opened Resampler

  /** The points `update_plot` leaves in `current_plot_info` for a non-empty
      series: all of them for a known period, only the origin when the
      `period_map[period]` lookup fails. */
  function RedrawnPoints(data: seq<Sample>, period: string): seq<PlotPoint>
    requires |data| >= 1
  {
    match DaysIn(period)
    case Some(unit) => Resampled(data, Stride(|data|, PeriodStep(period)), unit)
    case None => [Origin(data)]
  }

  class VisualCompoundInterestCalculator {
    var plotData: seq<Sample>
    var currentPlotInfo: seq<PlotPoint>
    /** The values behind the total amount, total interest and return rate
        labels (number formatting is not modelled). */
    var labels: Summary

    ghost predicate Valid()
      reads this
    {
      DayIndexed(plotData)
    }

    constructor ()
      ensures Valid()
      ensures plotData == [] && currentPlotInfo == []
      ensures labels == Summary(0.0, 0.0, Some(0.0))
    {
      plotData := [];
      currentPlotInfo := [];
      labels := Summary(0.0, 0.0, Some(0.0));
    }

    /** Resample `plot_data` for the chart period `period`. Returns false when
        `period_map[period]` raises `KeyError`. With no data the chart is reset
        and `current_plot_info` is left as it was. */
    method UpdatePlot(period: string) returns (ok: bool)
      requires Valid()
      modifies this`currentPlotInfo
      ensures Valid()
      ensures plotData == [] ==> ok && currentPlotInfo == old(currentPlotInfo)
      ensures plotData != [] ==> currentPlotInfo == RedrawnPoints(plotData, period)
      ensures plotData != [] ==> (ok <==> DaysIn(period).Some? || |plotData| == 1)
    {
      if plotData == [] {
        return true;
      }
      var n := |plotData|;
      var unitLength := DaysIn(period);
      var step := unitLength.GetOr(30);
      currentPlotInfo := [];
      var numPointsToPlot := (n as real) / (step as real);
      if numPointsToPlot > 500.0 {
        step := n / 500;
      }
      assert step == Stride(n, PeriodStep(period));
      currentPlotInfo := currentPlotInfo + [Origin(plotData)];
      ok := AppendStrided(step, unitLength);
      if ok {
        ok := AppendLast(step, unitLength);
      }
      RestEmpty(n, step);
    }

    /** The `for` loop of `update_plot`: the sample at every multiple of
        `step` after the origin. The x coordinate needs `period_map[period]`,
        here `unitLength`; when that lookup fails the first sample to be drawn
        raises `KeyError` and only the origin remains. */
    method AppendStrided(step: nat, unitLength: Option<nat>) returns (ok: bool)
      requires plotData != [] && step >= 1
      requires unitLength.Some? ==> unitLength.value >= 1
      requires currentPlotInfo == [Origin(plotData)]
      modifies this`currentPlotInfo
      ensures unitLength.Some? ==>
                ok && currentPlotInfo == [Origin(plotData)] + Points(plotData, Range(step, |plotData|, step), unitLength.value)
      ensures unitLength.None? ==>
                currentPlotInfo == [Origin(plotData)] && (ok <==> Range(step, |plotData|, step) == [])
    {
      var data := plotData;
      var n := |data|;
      var i := step;
      ghost var done: seq<nat> := [];
      while i < n
        invariant step <= i
        invariant Range(step, n, step) == done + Range(i, n, step)
        invariant forall k :: 0 <= k < |done| ==> done[k] < n
        invariant unitLength.None? ==> i == step && done == [] && currentPlotInfo == [Origin(data)]
        invariant unitLength.Some? ==> currentPlotInfo == [Origin(data)] + Points(data, done, unitLength.value)
        decreases n - i
      {
        var sample := data[i];
        if unitLength.None? {
          return false;
        }
        var unit := unitLength.value;
        PointsAppend(data, done, i, unit);
        currentPlotInfo := currentPlotInfo + [PlotPoint(sample.day, sample.amount, sample.day as real / unit as real)];
        RangeAdvance(step, n, step, done, i);
        done := done + [i];
        i := i + step;
      }
      assert done == Range(step, n, step);
      ok := true;
    }

    /** The last sample, drawn after the loop when its day is positive and
        `len(plot_data) - 1` is not a multiple of `step`; it needs
        `period_map[period]` too. */
    method AppendLast(step: nat, unitLength: Option<nat>) returns (ok: bool)
      requires Valid() && plotData != [] && step >= 1
      requires unitLength.Some? ==> unitLength.value >= 1
      requires unitLength.Some? ==>
                 currentPlotInfo == [Origin(plotData)] + Points(plotData, Range(step, |plotData|, step), unitLength.value)
      modifies this`currentPlotInfo
      ensures unitLength.Some? ==> ok && currentPlotInfo == Resampled(plotData, step, unitLength.value)
      ensures unitLength.None? ==>
                currentPlotInfo == old(currentPlotInfo) && (ok <==> !LastNeeded(|plotData|, step))
    {
      var data := plotData;
      var n := |data|;
      var last := data[n - 1];
      assert last.day == n - 1;
      LastNeededCases(n, step);
      ghost var done := Range(step, n, step);
      if last.day > 0 && (n - 1) % step != 0 {
        if unitLength.None? {
          return false;
        }
        var unit := unitLength.value;
        PointsAppend(data, done, n - 1, unit);
        currentPlotInfo := currentPlotInfo + [PlotPoint(last.day, last.amount, last.day as real / unit as real)];
        done := done + [n - 1];
      }
      assert done == Rest(n, step);
      assert unitLength.Some? ==> currentPlotInfo == [Origin(data)] + Points(data, Rest(n, step), unitLength.value);
      ok := true;
    }

    /** Validate the (already parsed) inputs, rebuild `plot_data` with one
        entry per day, show the summary of its last entry and redraw the
        chart for `period`. */
    method Calculate(pow: Power, principal: real, ratePercent: real, frequency: string,
                     durationValue: real, durationUnit: string, period: string)
      returns (outcome: Outcome)
      requires Valid()
      modifies this
      ensures Valid()
      ensures outcome == InputError <==> InvalidInput(principal, ratePercent, TotalDays(durationValue, durationUnit))
      ensures outcome == InputError ==>
                plotData == old(plotData) && currentPlotInfo == old(currentPlotInfo) && labels == old(labels)
      ensures outcome != InputError && DaysPerPeriod(frequency).None? ==>
                outcome == CalculationError && plotData == [] &&
                currentPlotInfo == old(currentPlotInfo) && labels == old(labels)
      ensures Accepted(principal, ratePercent, frequency, durationValue, durationUnit) ==>
                plotData == DailySeries(pow, principal, ratePercent, DaysPerPeriod(frequency).value,
                                        LastDay(TotalDays(durationValue, durationUnit)) + 1)
      ensures Accepted(principal, ratePercent, frequency, durationValue, durationUnit) ==>
                labels == Summarize(plotData, principal)
      ensures Accepted(principal, ratePercent, frequency, durationValue, durationUnit) ==>
                currentPlotInfo == RedrawnPoints(plotData, period)
      ensures Accepted(principal, ratePercent, frequency, durationValue, durationUnit) ==>
                (outcome == Calculated <==> DaysIn(period).Some? || |plotData| == 1)
    {
      var totalDays := TotalDays(durationValue, durationUnit);
      if principal < 0.0 || ratePercent < 0.0 || totalDays <= 0.0 {
        return InputError;
      }
      var ratePerPeriod := ratePercent / 100.0;
      var daysPerPeriod := DaysPerPeriod(frequency);
      plotData := [];
      if daysPerPeriod.None? {
        // Dividing the first day by the missing period length raises TypeError.
        return CalculationError;
      }
      var perPeriod := daysPerPeriod.value;
      var last := LastDay(totalDays);
      FillPlotData(pow, principal, ratePerPeriod, perPeriod, last);
      assert ratePerPeriod * 100.0 == ratePercent;
      assert DayIndexed(plotData) && |plotData| == last + 1;
      var finalAmount := plotData[|plotData| - 1].amount;
      var totalInterest := finalAmount - principal;
      var returnRate := if principal > 0.0 then Some((totalInterest / principal) * 100.0) else None;
      labels := Summary(finalAmount, totalInterest, returnRate);
      assert labels == Summarize(plotData, principal);
      var ok := UpdatePlot(period);
      outcome := if ok then Calculated else CalculationError;
    }

    /** The daily loop of `calculate`: for day 0 to `last`, the amount after
        elapsed compounding periods at `ratePerPeriod`. */
    method FillPlotData(pow: Power, principal: real, ratePerPeriod: real, daysPerPeriod: real, last: nat)
      requires daysPerPeriod > 0.0 && plotData == []
      modifies this`plotData
      ensures plotData == DailySeries(pow, principal, ratePerPeriod * 100.0, daysPerPeriod, last + 1)
    {
      var day := 0;
      while day < last + 1
        invariant 0 <= day <= last + 1
        invariant plotData == DailySeries(pow, principal, ratePerPeriod * 100.0, daysPerPeriod, day)
      {
        var currentPeriods := day as real / daysPerPeriod;
        var amount := principal * pow(1.0 + ratePerPeriod, currentPeriods);
        assert amount == Amount(pow, principal, ratePerPeriod * 100.0, daysPerPeriod, day);
        DailySeriesAppend(pow, principal, ratePerPeriod * 100.0, daysPerPeriod, day);
        plotData := plotData + [Sample(day, amount)];
        day := day + 1;
      }
    }
  }
}
