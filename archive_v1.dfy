/** archive/script_v1.py: one compound-interest result for a preset or
    custom duration, with the entered rate read as an annual rate and split
    over the compounding periods of a year. */
module ArchiveV1 {
  import opened Common

  /** What the two result labels show after pressing calculate, or that the
      input was refused and the labels were left as they were. */
  datatype Totals = Rejected | Shown(totalAmount: real, totalInterest: real)

  /** Compounding periods per year: 1 yearly, 12 monthly, and 365 for any
      other choice (the daily one). */
  function PeriodsPerYear(frequency: string): (ppy: nat)
    ensures ppy in {1, 12, 365}
    ensures ppy == 1 <==> frequency == "按年"
    ensures ppy == 12 <==> frequency == "按月"
  {
    if frequency == "按年" then 1
    else if frequency == "按月" then 12
    else 365
  }

  /** The duration in days: the one-year, one-month and one-week presets, or
      the custom number of days entered. */
  function PresetDays(duration: string, customDays: int): (days: int)
    ensures duration == "一年" ==> days == 365
    ensures duration == "一月" ==> days == 30
    ensures duration == "一周" ==> days == 7
    ensures duration !in {"一年", "一月", "一周"} ==> days == customDays
  {
    if duration == "一年" then 365
    else if duration == "一月" then 30
    else if duration == "一周" then 7
    else customDays
  }

  /** The annual rate in percent divided over the periods of a year. */
  function RatePerPeriod(annualRatePercent: real, periodsPerYear: nat): real
    requires periodsPerYear >= 1
  {
    (annualRatePercent / 100.0) / periodsPerYear as real
  }

  /** The number of periods in `totalDays` days: the fraction of a 365-day
      year they span, times the periods per year. */
  function TotalPeriods(totalDays: int, periodsPerYear: nat): real {
    totalDays as real * (periodsPerYear as real / 365.0)
  }

  /** `calculate`: refuse negative input, otherwise compound the principal
      over the number of periods the duration spans. */
  function Calculate(pow: Power, principal: real, annualRatePercent: real, frequency: string,
                     duration: string, customDays: int): (r: Totals)
    ensures r.Rejected? <==> principal < 0.0 || annualRatePercent < 0.0 || PresetDays(duration, customDays) < 0
    ensures r.Shown? ==> r.totalAmount == principal + r.totalInterest
  {
    var periodsPerYear := PeriodsPerYear(frequency);
    var totalDays := PresetDays(duration, customDays);
    var ratePerPeriod := RatePerPeriod(annualRatePercent, periodsPerYear);
    var totalPeriods := TotalPeriods(totalDays, periodsPerYear);
    if principal < 0.0 || annualRatePercent < 0.0 || totalDays < 0 then Rejected
    else
      var totalAmount := principal * pow(1.0 + ratePerPeriod, totalPeriods);
      Shown(totalAmount, totalAmount - principal)
  }

  /** Refusal in terms of the entries: a preset duration is never refused,
      so only a negative principal, rate or custom day count is. */
  lemma RejectedExactly(pow: Power, principal: real, annualRatePercent: real, frequency: string,
                        duration: string, customDays: int)
    ensures Calculate(pow, principal, annualRatePercent, frequency, duration, customDays).Rejected? <==>
              principal < 0.0 || annualRatePercent < 0.0 ||
              (duration !in {"一年", "一月", "一周"} && customDays < 0)
  {
  }

  /** The worked example of the source: 730 days compounded monthly are 24
      periods. */
  lemma TwoYearsMonthly()
    ensures TotalPeriods(730, PeriodsPerYear("按月")) == 24.0
  {
  }

  /** The one-year preset spans exactly one year of periods, whatever the
      frequency. */
  lemma OneYearIsOneYearOfPeriods(frequency: string, customDays: int)
    ensures TotalPeriods(PresetDays("一年", customDays), PeriodsPerYear(frequency)) == PeriodsPerYear(frequency) as real
  {
  }

  /** Splitting the annual rate over the periods of a year loses nothing:
      the per-period rates of one year add up to the annual rate. */
  lemma RatesAddUpToAnnual(annualRatePercent: real, frequency: string)
    ensures RatePerPeriod(annualRatePercent, PeriodsPerYear(frequency)) * PeriodsPerYear(frequency) as real
            == annualRatePercent / 100.0
  {
    var ppy := PeriodsPerYear(frequency) as real;
    assert (annualRatePercent / 100.0) / ppy * ppy == annualRatePercent / 100.0;
  }

  /** A custom duration of zero days returns the principal with no interest. */
  lemma ZeroDaysNoInterest(pow: Power, principal: real, annualRatePercent: real, frequency: string, duration: string)
    requires ZeroPowerIsOne(pow) && principal >= 0.0 && annualRatePercent >= 0.0
    requires duration !in {"一年", "一月", "一周"}
    ensures Calculate(pow, principal, annualRatePercent, frequency, duration, 0) == Shown(principal, 0.0)
  {
    assert TotalPeriods(0, PeriodsPerYear(frequency)) == 0.0;
  }
}
