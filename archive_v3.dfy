/** archive/script_v3.py: the duration is a number and a unit, converted
    into days; validation, periods and formula are those of
    archive/script_v2.py. */
module ArchiveV3 {
  import opened Common
  import opened Projection
  import opened ArchiveV1
  import opened ArchiveV2

  /** The duration in days: years of 365, months of 30, weeks of 7 days, and
      the number itself for any other unit (the day unit). */
  function DurationDays(durationValue: real, durationUnit: string): (days: real)
    ensures durationUnit !in {"年", "月", "周"} ==> days == durationValue
    ensures days >= 0.0 <==> durationValue >= 0.0
  {
    if durationUnit == "年" then durationValue * 365.0
    else if durationUnit == "月" then durationValue * 30.0
    else if durationUnit == "周" then durationValue * 7.0
    else durationValue
  }

  /** `calculate`. */
  function Calculate(pow: Power, principal: real, ratePercent: real, frequency: string,
                     durationValue: real, durationUnit: string): (r: Totals)
    ensures r.Rejected? <==> principal < 0.0 || ratePercent < 0.0 || durationValue < 0.0
    ensures r.Shown? ==> r.totalAmount == principal + r.totalInterest
  {
    Compound(pow, principal, ratePercent, DurationDays(durationValue, durationUnit), frequency)
  }

  /** The unit table agrees with the one of the current version on the four
      units it knows; an unknown unit counts as days here and as zero days
      (hence refused) there. */
  lemma UnitTableAgreesWithCurrent(durationValue: real, durationUnit: string)
    ensures DaysIn(durationUnit).Some? ==> DurationDays(durationValue, durationUnit) == TotalDays(durationValue, durationUnit)
    ensures DaysIn(durationUnit).None? ==>
              DurationDays(durationValue, durationUnit) == durationValue && TotalDays(durationValue, durationUnit) == 0.0
  {
  }

  /** A zero duration is accepted and returns the principal with no
      interest. */
  lemma ZeroDurationNoInterest(pow: Power, principal: real, ratePercent: real, frequency: string, durationUnit: string)
    requires ZeroPowerIsOne(pow) && principal >= 0.0 && ratePercent >= 0.0
    ensures Calculate(pow, principal, ratePercent, frequency, 0.0, durationUnit) == Shown(principal, 0.0)
  {
    assert DurationDays(0.0, durationUnit) == 0.0;
    assert PeriodsFor(0.0, frequency) == 0.0;
  }

  /** For a whole number of days, a known unit and a known frequency, the
      single result of this version is the final amount of the daily series
      of the current version. */
  lemma AgreesWithCurrentFinalAmount(pow: Power, principal: real, ratePercent: real, frequency: string,
                                     durationValue: real, durationUnit: string)
    requires Accepted(principal, ratePercent, frequency, durationValue, durationUnit)
    requires DaysIn(durationUnit).Some?
    requires TotalDays(durationValue, durationUnit) == LastDay(TotalDays(durationValue, durationUnit)) as real
    ensures var series := DailySeries(pow, principal, ratePercent, DaysPerPeriod(frequency).value,
                                      LastDay(TotalDays(durationValue, durationUnit)) + 1);
            var s := Summarize(series, principal);
            Calculate(pow, principal, ratePercent, frequency, durationValue, durationUnit)
            == Shown(s.finalAmount, s.totalInterest)
  {
    var totalDays := TotalDays(durationValue, durationUnit);
    var last := LastDay(totalDays);
    var perPeriod := DaysPerPeriod(frequency).value;
    UnitTableAgreesWithCurrent(durationValue, durationUnit);
    FinalAmountIsLastDay(pow, principal, ratePercent, perPeriod, totalDays);
    assert PeriodsFor(totalDays, frequency) == last as real / perPeriod;
  }
}
