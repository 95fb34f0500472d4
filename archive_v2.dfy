/** archive/script_v2.py: the same presets as the first version, but the
    entered rate is the rate of one compounding period and the duration is
    converted into periods of 365, 30 or 1 days. The validation and the
    formula are shared with archive/script_v3.py. */
module ArchiveV2 {
  import opened Common
  import opened ArchiveV1

  /** The number of compounding periods in `totalDays`: years of 365 days,
      months of 30 days, and days for any other choice. */
  function PeriodsFor(totalDays: real, frequency: string): (periods: real)
    ensures frequency == "按年" ==> periods * 365.0 == totalDays
    ensures frequency == "按月" ==> periods * 30.0 == totalDays
    ensures frequency !in {"按年", "按月"} ==> periods == totalDays
  {
    if frequency == "按年" then totalDays / 365.0
    else if frequency == "按月" then totalDays / 30.0
    else totalDays
  }

  /** Refuse negative input, otherwise compound the principal at
      `rate_percent / 100` per period over the periods of the duration. */
  function Compound(pow: Power, principal: real, ratePercent: real, totalDays: real, frequency: string): (r: Totals)
    ensures r.Rejected? <==> principal < 0.0 || ratePercent < 0.0 || totalDays < 0.0
    ensures r.Shown? ==> r.totalAmount == principal + r.totalInterest
  {
    if principal < 0.0 || ratePercent < 0.0 || totalDays < 0.0 then Rejected
    else
      var ratePerPeriod := ratePercent / 100.0;
      var totalAmount := principal * pow(1.0 + ratePerPeriod, PeriodsFor(totalDays, frequency));
      Shown(totalAmount, totalAmount - principal)
  }

  /** `calculate`. */
  function Calculate(pow: Power, principal: real, ratePercent: real, frequency: string,
                     duration: string, customDays: int): (r: Totals)
    ensures r.Rejected? <==> principal < 0.0 || ratePercent < 0.0 ||
                             (duration !in {"一年", "一月", "一周"} && customDays < 0)
    ensures r.Shown? ==> r.totalAmount == principal + r.totalInterest
  {
    Compound(pow, principal, ratePercent, PresetDays(duration, customDays) as real, frequency)
  }

  /** With the preset that matches the frequency (a year yearly, a month
      monthly) the duration is exactly one period, so the result is one
      application of the entered rate. */
  lemma MatchingPresetIsOnePeriod(pow: Power, principal: real, ratePercent: real, customDays: int)
    requires principal >= 0.0 && ratePercent >= 0.0
    ensures Calculate(pow, principal, ratePercent, "按年", "一年", customDays)
            == Calculate(pow, principal, ratePercent, "按月", "一月", customDays)
    ensures Calculate(pow, principal, ratePercent, "按年", "一年", customDays).totalAmount
            == principal * pow(1.0 + ratePercent / 100.0, 1.0)
  {
    assert PeriodsFor(365.0, "按年") == 1.0;
    assert PeriodsFor(30.0, "按月") == 1.0;
  }

  /** For yearly compounding the two first versions agree: the annual rate
      split over one period is the rate of that period. */
  lemma YearlyAgreesWithV1(pow: Power, principal: real, ratePercent: real, duration: string, customDays: int)
    ensures Calculate(pow, principal, ratePercent, "按年", duration, customDays)
            == ArchiveV1.Calculate(pow, principal, ratePercent, "按年", duration, customDays)
  {
    var days := PresetDays(duration, customDays);
    assert TotalPeriods(days, PeriodsPerYear("按年")) == PeriodsFor(days as real, "按年");
    assert RatePerPeriod(ratePercent, PeriodsPerYear("按年")) == ratePercent / 100.0;
  }
}
