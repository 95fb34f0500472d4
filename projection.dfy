/** The projection engine shared by `calculate` in script.py and in
    archive/script_v4.py: the duration and frequency tables, the input
    validation, the daily series `plot_data` and the summary derived from its
    last entry. */
module Projection {
  import opened Common

  /** The duration in days: the entered value times the length of its unit,
      where an unknown unit counts as 0 days. */
  function TotalDays(durationValue: real, durationUnit: string): (days: real)
    ensures DaysIn(durationUnit).None? ==> days == 0.0
  {
    durationValue * (DaysIn(durationUnit).GetOr(0) as real)
  }

  /** The guard that rejects a calculation. */
  predicate InvalidInput(principal: real, ratePercent: real, totalDays: real) {
    principal < 0.0 || ratePercent < 0.0 || totalDays <= 0.0
  }

  /** Rejection in terms of what the user entered: a negative principal or
      rate, a duration that is not positive, or a unit the table does not
      know (it counts as 0 days). */
  lemma RejectedExactly(principal: real, ratePercent: real, durationValue: real, durationUnit: string)
    ensures InvalidInput(principal, ratePercent, TotalDays(durationValue, durationUnit)) <==>
              principal < 0.0 || ratePercent < 0.0 || durationValue <= 0.0 || DaysIn(durationUnit).None?
  {
    match DaysIn(durationUnit)
    case None =>
    case Some(k) =>
      assert k >= 1;
      if durationValue > 0.0 {
        assert durationValue * (k as real) >= durationValue;
      } else {
        assert durationValue * (k as real) <= 0.0;
      }
  }

  /** How one press of the calculate button ends: the result is shown, the
      input is refused ("输入错误"), or an exception is caught ("计算错误"). */
  datatype Outcome = Calculated | InputError | CalculationError

  /** `freq_to_days.get(frequency)`: the length of one compounding period in
      days, or None (Python's `None`) for a name the table does not hold. */
  function DaysPerPeriod(frequency: string): (days: Option<real>)
    ensures days.Some? <==> frequency in {"按年", "按月", "按日"}
    ensures frequency == "按年" ==> days == Some(365.0)
    ensures frequency == "按月" ==> days == Some(30.0)
    ensures frequency == "按日" ==> days == Some(1.0)
  {
    if frequency == "按年" then Some(365.0)
    else if frequency == "按月" then Some(30.0)
    else if frequency == "按日" then Some(1.0)
    else None
  }

  /** The amount on `day`: the principal compounded at the entered rate per
      period over the (fractional) number of periods elapsed. */
  function Amount(pow: Power, principal: real, ratePercent: real, daysPerPeriod: real, day: int): real
    requires daysPerPeriod > 0.0
  {
    principal * pow(1.0 + ratePercent / 100.0, day as real / daysPerPeriod)
  }

  /** `int(total_days)` for an accepted (positive) duration: Python's `int`
      truncates toward zero, which for a positive number is the floor. */
  function LastDay(totalDays: real): (last: nat)
    requires totalDays > 0.0
    ensures last as real <= totalDays < last as real + 1.0
  {
    totalDays.Floor
  }

  /** The first `count` entries of `plot_data`: one sample per day, starting
      at day 0. */
  function DailySeries(pow: Power, principal: real, ratePercent: real, daysPerPeriod: real, count: nat): seq<Sample>
    requires daysPerPeriod > 0.0
  {
    seq(count, i requires 0 <= i < count => Sample(i, Amount(pow, principal, ratePercent, daysPerPeriod, i)))
  }

  lemma DailySeriesAppend(pow: Power, principal: real, ratePercent: real, daysPerPeriod: real, count: nat)
    requires daysPerPeriod > 0.0
    ensures DailySeries(pow, principal, ratePercent, daysPerPeriod, count + 1)
            == DailySeries(pow, principal, ratePercent, daysPerPeriod, count)
               + [Sample(count, Amount(pow, principal, ratePercent, daysPerPeriod, count))]
  {
  }

  /** The whole series has one entry per day 0..last, day `i` at index `i`,
      so the days start at 0 and strictly increase. */
  lemma SeriesShape(pow: Power, principal: real, ratePercent: real, daysPerPeriod: real, last: nat)
    requires daysPerPeriod > 0.0
    ensures var s := DailySeries(pow, principal, ratePercent, daysPerPeriod, last + 1);
              |s| == last + 1 >= 1 && s[0].day == 0 && s[last].day == last &&
              (forall i :: 0 <= i < |s| ==> s[i].day == i) &&
              (forall i, j :: 0 <= i < j < |s| ==> s[i].day < s[j].day)
  {
  }

  /** At day 0 no interest has accrued: the first amount is the principal. */
  lemma SeriesStartsAtPrincipal(pow: Power, principal: real, ratePercent: real, daysPerPeriod: real, count: nat)
    requires daysPerPeriod > 0.0 && count >= 1
    requires ZeroPowerIsOne(pow)
    ensures DailySeries(pow, principal, ratePercent, daysPerPeriod, count)[0].amount == principal
  {
    assert 0 as real / daysPerPeriod == 0.0;
  }

  /** With no principal every amount is 0, whatever the rate and period. */
  lemma ZeroPrincipalSeries(pow: Power, ratePercent: real, daysPerPeriod: real, count: nat)
    requires daysPerPeriod > 0.0
    ensures forall i :: 0 <= i < count ==> DailySeries(pow, 0.0, ratePercent, daysPerPeriod, count)[i].amount == 0.0
  {
  }

  /** What the result labels show after a calculation: final amount, total
      interest and, when the principal is positive, the return rate (None is
      the "N/A" text). */
  datatype Summary = Summary(finalAmount: real, totalInterest: real, returnRate: Option<real>)

  /** The summary is derived from the last entry of the series and nothing
      else. */
  function Summarize(series: seq<Sample>, principal: real): (s: Summary)
    requires |series| > 0
    ensures s.finalAmount == series[|series| - 1].amount
    ensures s.finalAmount == principal + s.totalInterest
    ensures s.returnRate.Some? <==> principal > 0.0
    ensures s.returnRate.Some? ==> s.returnRate.value * principal == 100.0 * s.totalInterest
  {
    var finalAmount := series[|series| - 1].amount;
    var totalInterest := finalAmount - principal;
    Summary(finalAmount, totalInterest,
            if principal > 0.0 then Some((totalInterest / principal) * 100.0) else None)
  }

  /** The final amount is the amount of the last whole day of the duration. */
  lemma FinalAmountIsLastDay(pow: Power, principal: real, ratePercent: real, daysPerPeriod: real, totalDays: real)
    requires daysPerPeriod > 0.0 && totalDays > 0.0
    ensures Summarize(DailySeries(pow, principal, ratePercent, daysPerPeriod, LastDay(totalDays) + 1), principal).finalAmount
            == Amount(pow, principal, ratePercent, daysPerPeriod, LastDay(totalDays))
  {
  }

  /** A zero principal yields a zero final amount, zero interest and "N/A". */
  lemma ZeroPrincipalSummary(pow: Power, ratePercent: real, daysPerPeriod: real, count: nat)
    requires daysPerPeriod > 0.0 && count >= 1
    ensures Summarize(DailySeries(pow, 0.0, ratePercent, daysPerPeriod, count), 0.0) == Summary(0.0, 0.0, None)
  {
  }

  /** The inputs pass validation and name a known compounding frequency. */
  predicate Accepted(principal: real, ratePercent: real, frequency: string, durationValue: real, durationUnit: string) {
    !InvalidInput(principal, ratePercent, TotalDays(durationValue, durationUnit)) && DaysPerPeriod(frequency).Some?
  }
}
