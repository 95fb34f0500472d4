# Compound-interest calculator: a verified model

The repository is a desktop compound-interest calculator. The user enters a
principal, a rate in percent, a compounding frequency (yearly 按年, monthly
按月, daily 按日) and a duration (a number and a unit: year 年, month 月,
week 周, day 日). The current version (script.py) refuses invalid input.
Otherwise it builds a daily projection `plot_data` with one `(day, amount)`
entry for every whole day of the duration. It shows the final amount, the
total interest and the return rate, and draws a resampled curve. A mouse-over
annotation shows the nearest drawn point. The archived versions are:

- archive/script_v4.py: the same projection, with a different resampler and
  no return rate.
- archive/script_v3.py, archive/script_v2.py and archive/script_v1.py: each
  computes a single result.

This model covers all of these, with the floating-point power `**` as a
parameter.

- `common.dfy` (module `Common`): the option type, the power parameter, a
  daily sample, and the unit table 年/月/周/日 → 365/30/7/1. The same table
  also gives the chart display unit.
- `projection.dfy` (`Projection`): the validation, the frequency table, the
  daily series and the summary derived from its last entry.
- `resampler.dfy` (`Resampler`): which indices of `plot_data` are drawn.
  This is index 0, every multiple of the stride below the length, and the last
  index when it is not a multiple. The file has both stride rules (the 500-point
  budget with true division in script.py, the 1000-point budget with floor
  division in script_v4.py) and the drawn points.
- `calculator.dfy` (`Calculator`): the window of script.py as a class. Its
  fields are `plot_data`, `current_plot_info` and the label values.
  `calculate` and `update_plot` are looping methods proved against the
  functions above.
- `calculator_v4.dfy` (`CalculatorV4`): the window of script_v4.py. Its
  `update_plot` builds the x and y lists locally and then draws them.
- `hover.dfy` (`Hover`): the nearest-point lookup (first minimum of the
  distances), the annotation placement and the annotation values.
- `archive_v1.dfy`, `archive_v2.dfy`, `archive_v3.dfy`: the single-shot
  calculations of the three oldest versions.

Inputs are taken already parsed. All of the following are parameters:

- the entry contents (numbers);
- the selector values (strings);
- the pointer position, whether it is inside the axes, and the x limits;
- the power function. The only law of the power used is that `b ** 0 == 1`
  (`Common.ZeroPowerIsOne`), and it appears only as a lemma hypothesis.

Floats are modelled as reals. `int(total_days)` of a positive duration is its
floor.

Validation in script.py and script_v4.py runs before `plot_data` is touched.
An unknown frequency empties `plot_data`, and then dividing by the missing
period length raises `TypeError`. The handler reports "计算错误" and leaves
the labels as they were. An unknown chart period gives the default stride 30.
The first point after the origin then raises `KeyError` in
`period_map[period]`. The model keeps both behaviours as error outcomes.

## Model

| member | source | states |
|---|---|---|
| Common.DaysIn | script.py:219-220 | The duration-unit table knows exactly 年, 月, 周 and 日, and maps them to 365, 30, 7 and 1 days respectively. |
| Projection.TotalDays | script.py:219-220 | The duration in days is the entered value times its unit's length; an unknown unit counts as 0 days. |
| Projection.InvalidInput | script.py:221 | The refusal guard: a negative principal or rate, or a duration that is not positive. |
| Projection.RejectedExactly | script.py:219-223 | Input is refused exactly when the principal or rate is negative, the duration value is not positive, or the unit is unknown (an unknown unit counts as 0 days). |
| Projection.DaysPerPeriod | script.py:225-226 | The frequency table knows exactly 按年, 按月 and 按日, and maps them to period lengths of 365, 30 and 1 days respectively; otherwise it gives no value. |
| Projection.Amount | script.py:229-230 | The amount on a day is the principal compounded at the entered rate per period over the fractional number of periods elapsed. |
| Projection.DailySeries | script.py:227-231 | The reference definition of `plot_data`: one `(day, amount)` entry for each day from 0, in order; its shape is stated by `SeriesShape`. |
| Projection.LastDay | script.py:228 | The last day of the series is the whole part of the total days: it is at most the total and more than the total minus one. |
| Projection.SeriesShape | script.py:227-231 | The rebuilt series has `int(total_days) + 1` entries, and entry `i` is day `i`. So the days start at 0 and strictly increase. |
| Projection.DailySeriesAppend | script.py:228-231 | Each loop iteration appends day `count` with its compounded amount to the series of the first `count` days. |
| Projection.SeriesStartsAtPrincipal | script.py:229-230 | If anything to the power 0 is 1, the amount on day 0 is the principal. |
| Projection.ZeroPrincipalSeries | script.py:230 | With principal 0 every amount of the series is 0. |
| Projection.Summarize | script.py:233-240 | The final amount is the last entry's amount, and the total interest is what it adds to the principal. A return rate exists exactly when the principal is positive, and the rate times the principal is 100 times the interest. |
| Projection.FinalAmountIsLastDay | script.py:228-233 | The final amount is the compounded amount of the last whole day of the duration. |
| Projection.ZeroPrincipalSummary | script.py:233-240 | A zero principal shows amount 0, interest 0 and the "N/A" rate. |
| Resampler.Range | script.py:277 | Every element of `range(start, stop, step)` lies in `[start, stop)`. |
| Resampler.RangeMembers | script.py:277 | A number is in `range(start, stop, step)` exactly when it lies in `[start, stop)` and is `start` plus a multiple of `step`. |
| Resampler.RangeIncreasing | script.py:277 | A range with a positive step strictly increases. |
| Resampler.RangeLength | script.py:277 | The length of a range is `(stop - start - 1) // step + 1` when it is not empty, and 0 otherwise. |
| Resampler.RangeAdvance | script.py:277-280 | After visiting element `i`, the visited prefix plus the rest of the range, from `i + step`, is the whole range. |
| Resampler.LastNeeded | script.py:283 | The reference definition of the tail guard: the last index is not a multiple of the stride. |
| Resampler.Tail | script.py:282-285 | The last index when it is needed, and nothing otherwise. |
| Resampler.LastNeededCases | script.py:282-283 | The last index is appended exactly when it is positive and not a multiple of the stride. This always happens when the stride reaches past it. |
| Resampler.Rest | script.py:277-285 | The indices drawn after the origin: the multiples of the stride below the length, then the tail; every one is a valid index. |
| Resampler.RestEmpty | script.py:275-285 | Only the origin is drawn exactly when the series has one entry. This is the same as "no multiple of the stride below the length and no last index". |
| Resampler.Indices | script.py:275-285 | The drawn indices start with 0, and every one is a valid index. |
| Resampler.IndicesMembers | script.py:275-285 | An index is drawn exactly when it is a multiple of the stride or the last index. |
| Resampler.IndicesIncreasing | script.py:275-285 | The drawn indices strictly increase, so no index is drawn twice. |
| Resampler.ConcatIncreasing | script.py:275-285 | Appending an increasing list that lies wholly above an increasing list keeps the result increasing. This is how the origin, the multiples and the last index join. |
| Resampler.IncreasingDistinct | script.py:275-285 | A strictly increasing list has no duplicates. |
| Resampler.LastAboveRange | script.py:283-285 | When the last index is appended it is positive and above every multiple already drawn. |
| Resampler.IndicesEnds | script.py:275-285 | The first drawn index is 0 and the last drawn index is always the last entry, whatever the stride. |
| Resampler.IndicesMultiples | script.py:277-285 | Every drawn index except possibly the last is a multiple of the stride. |
| Resampler.IndicesCount | script.py:275-285 | Exactly `1 + (len-1) // step + (1 if (len-1) % step != 0 else 0)` points are drawn. |
| Resampler.PeriodStep | script.py:266-267 | The initial stride is the display unit's length in days, and 30 for an unknown period; it is always at least 1. |
| Resampler.Stride | script.py:271-273 | The stride is at least 1. It stays the display unit unless the data holds more than 500 strides. |
| Resampler.StrideIntegerForm | script.py:271-273 | The true-division test `len / step > 500` is the integer test `len > 500 * step`. |
| Resampler.StrideV4 | archive/script_v4.py:226-228 | The stride is at least 1. It stays the display unit whenever fewer than 1001 of its strides fit in the data, i.e. whenever the floor count `len // step` is at most 1000. |
| Resampler.StrideV4IntegerForm | archive/script_v4.py:226-228 | The exact stride of archive/script_v4.py: `len // 1000` when the data holds at least 1001 display units, and the display unit otherwise. |
| Resampler.StrideCoarserThanV4 | archive/script_v4.py:226-228 | The current stride is never finer than the archived one. The two agree, and equal the display unit, when the current version makes no adjustment. |
| Resampler.PointCountExamples | script.py:271-285 | The 500 budget does not bound the point count. With the day unit, 999 days give 999 points and 1000 days give 501. |
| Resampler.Point | script.py:278-280 | A drawn point keeps the sample's day and amount, with x the day divided by the display unit's length. |
| Resampler.Origin | script.py:275 | The first drawn point is day 0 at x 0 with the first amount. |
| Resampler.Resampled | script.py:275-285 | The whole of `current_plot_info`: the origin followed by one point per drawn index after it. |
| Resampler.Points | script.py:277-280 | One drawn point per listed index. |
| Resampler.PointsAppend | script.py:278-280 | Drawing one more index appends that sample's point. |
| Resampler.ResampledPoints | script.py:275-285 | On a day-indexed series the drawn points are the samples at the drawn indices, in order. Their days strictly increase from 0 to the last day. Each x coordinate is the day divided by the display unit's length, not by the possibly adjusted stride. |
| Resampler.Xs | script.py:287 | The x list has one entry per drawn point. |
| Resampler.Ys | script.py:288 | The y list has one entry per drawn point. |
| Resampler.CurveAppend | archive/script_v4.py:230-233 | Appending a point appends its x and its amount to the two coordinate lists. |
| Calculator.RedrawnPoints | script.py:265-285 | The reference value of `current_plot_info` after a redraw of non-empty data: the resampled series for a known period, only the origin when the period lookup fails. |
| Calculator.VisualCompoundInterestCalculator.constructor | script.py:93-119 | A new window has no data, no drawn points, and labels reading 0, 0 and 0 %. |
| Calculator.VisualCompoundInterestCalculator.Calculate | script.py:210-258 | Refusal happens exactly under the validation rule, and then nothing changes. An unknown frequency empties the series and changes nothing else. Otherwise the series is the daily series and the labels are its summary. The drawn points are the re-sampled series for the chart period, and the outcome is success unless the chart period is unknown and more than the origin would be drawn. |
| Calculator.VisualCompoundInterestCalculator.FillPlotData | script.py:227-231 | The loop leaves exactly the daily series of `int(total_days) + 1` days in `plot_data`. |
| Calculator.VisualCompoundInterestCalculator.UpdatePlot | script.py:260-285 | With no data nothing is drawn and `current_plot_info` is left as it was. Otherwise `current_plot_info` is rebuilt from scratch as the resampled series under the script.py stride rule. It succeeds exactly when the period is known or only the origin is drawn. |
| Calculator.VisualCompoundInterestCalculator.AppendStrided | script.py:277-280 | After the origin, the loop appends the point of every multiple of the stride. For an unknown period it stops with only the origin, and fails unless nothing was to be drawn. |
| Calculator.VisualCompoundInterestCalculator.AppendLast | script.py:282-285 | The last sample is appended exactly when it is needed, which completes the resampled list. An unknown period fails exactly when the last sample is needed. |
| CalculatorV4.LabelsOf | archive/script_v4.py:187-188 | The two labels show the last entry's amount and what it adds to the principal. |
| CalculatorV4.PlottedCurve | archive/script_v4.py:217-238 | The reference value of the drawn curve: the x and y lists of the resampled series under the 1000-point rule, one point when only the origin exists, and nothing when the period lookup fails. |
| CalculatorV4.PlottedCurveShape | archive/script_v4.py:221-238 | For a known period the curve starts at x 0 with the first amount and ends at the last day in display units. Its x values strictly increase, and each pairs a day in display units with that day's amount. |
| CalculatorV4.DivideMonotone | archive/script_v4.py:232 | Dividing days by the display unit keeps their order. |
| CalculatorV4.VisualCompoundInterestCalculator.constructor | archive/script_v4.py:83-105 | A new window has no data, labels reading 0 and 0, and the placeholder chart. |
| CalculatorV4.VisualCompoundInterestCalculator.Calculate | archive/script_v4.py:158-207 | Refusal happens exactly under the validation rule, and then nothing changes. An unknown frequency empties the series and changes nothing else. Otherwise the series is the daily series and the labels are its last amount and interest. The chart shows the plotted curve exactly when the outcome is success; otherwise it is left as it was. |
| CalculatorV4.VisualCompoundInterestCalculator.FillPlotData | archive/script_v4.py:181-185 | The loop leaves exactly the daily series in `plot_data`. |
| CalculatorV4.VisualCompoundInterestCalculator.UpdatePlot | archive/script_v4.py:210-238 | With no data the axes are cleared back to the placeholder (`setup_initial_plot`). Otherwise it succeeds exactly when a curve can be built, and then the chart shows that curve. On failure nothing is drawn. |
| CalculatorV4.VisualCompoundInterestCalculator.Coordinates | archive/script_v4.py:217-238 | The x and y lists are those of the resampled series under the script_v4.py stride rule, and nothing is returned when the period lookup fails. |
| CalculatorV4.VisualCompoundInterestCalculator.StridedCoordinates | archive/script_v4.py:221-233 | The origin and every multiple of the stride give the coordinate lists. For an unknown period only the origin remains, and it fails unless nothing more was to be drawn. |
| CalculatorV4.VisualCompoundInterestCalculator.WithLastCoordinate | archive/script_v4.py:235-238 | The guard `last_day % step != 0` appends the last coordinate exactly when it is needed, which completes the curve. |
| Hover.Distances | script.py:140 | One distance per drawn point, so the lookup's position is a position in `current_plot_info`. |
| Hover.Min | script.py:141 | `min` returns an element of the list that is no larger than any element. |
| Hover.IndexOf | script.py:141 | `list.index` returns the first position holding the value. |
| Hover.Nearest | script.py:140-142 | `distances.index(min(distances))` is a valid position; `NearestIsFirstMinimum` states which one. |
| Hover.NearestIsFirstMinimum | script.py:140-142 | The chosen point is at minimum distance from the pointer, and every earlier point is strictly farther. It is the only position with both properties. |
| Hover.TieGoesToEarlierDay | script.py:140-142 | On a chart with increasing days, a tie between equally near points goes to the earlier day. |
| Hover.Place | script.py:150-155 | The box goes to the left of the point, right-aligned at offset (-25, 25), exactly when the point is right of the x-axis midpoint; otherwise it goes right at (25, 25), left-aligned. |
| Hover.PlacementFacesCentre | script.py:150-155 | The box is always shifted 25 points towards the middle of the axes, with the alignment on its side facing the point. |
| Hover.Describe | script.py:159-181 | The time is the day in display units. The short text appears exactly when the principal did not parse. The profit is the amount minus the principal. A rate appears exactly when the principal is positive, and the rate times the principal is 100 times the profit. |
| Hover.OnHover | script.py:133-183 | Nothing is looked up exactly when no point is drawn or the pointer is outside the axes. Otherwise the annotated point is the first nearest one, placed by the midpoint rule. An unknown period raises `KeyError` exactly then. |
| Hover.HoverTimeIsPlotX | script.py:150-161 | On a chart drawn for the same period, the time shown equals the point's x coordinate. |
| ArchiveV1.PeriodsPerYear | archive/script_v1.py:107-113 | A year has 1 period yearly, 12 monthly and 365 for any other choice. |
| ArchiveV1.PresetDays | archive/script_v1.py:116-124 | The presets 一年, 一月 and 一周 are 365, 30 and 7 days respectively; any other choice takes the custom day count. |
| ArchiveV1.RatePerPeriod | archive/script_v1.py:128 | The per-period rate is the annual rate divided over the periods of a year; `RatesAddUpToAnnual` states that nothing is lost. |
| ArchiveV1.TotalPeriods | archive/script_v1.py:132 | The number of periods is the fraction of a 365-day year the days span, times the periods per year; `TwoYearsMonthly` and `OneYearIsOneYearOfPeriods` pin it. |
| ArchiveV1.Calculate | archive/script_v1.py:126-141 | Refusal happens exactly for a negative principal, rate or day count. Otherwise the amount is the principal plus the interest. |
| ArchiveV1.RejectedExactly | archive/script_v1.py:116-136 | In terms of the entries, only a negative principal, rate or custom day count is refused, never a preset. |
| ArchiveV1.TwoYearsMonthly | archive/script_v1.py:130-132 | 730 days compounded monthly are 24 periods. |
| ArchiveV1.OneYearIsOneYearOfPeriods | archive/script_v1.py:117-132 | The one-year preset spans exactly the periods of one year. |
| ArchiveV1.RatesAddUpToAnnual | archive/script_v1.py:128 | The per-period rates of one year add up to the annual rate. |
| ArchiveV1.ZeroDaysNoInterest | archive/script_v1.py:132-141 | A zero-day custom duration returns the principal with no interest. |
| ArchiveV2.PeriodsFor | archive/script_v2.py:145-151 | The period count times 365 (yearly) or 30 (monthly) is the day count; for any other frequency it is the day count. |
| ArchiveV2.Compound | archive/script_v2.py:134-156 | Refusal happens exactly for a negative principal, rate or day count. Otherwise the amount is the principal plus the interest. |
| ArchiveV2.Calculate | archive/script_v2.py:125-156 | In terms of the entries, only a negative principal, rate or custom day count is refused. |
| ArchiveV2.MatchingPresetIsOnePeriod | archive/script_v2.py:125-156 | A year compounded yearly and a month compounded monthly are each one period at the entered rate, and the two results are equal. |
| ArchiveV2.YearlyAgreesWithV1 | archive/script_v2.py:141-156 | For yearly compounding this version and archive/script_v1.py give the same result. |
| ArchiveV3.DurationDays | archive/script_v3.py:123-130 | An unknown unit takes the value as days. The day count is non-negative exactly when the value is. |
| ArchiveV3.Calculate | archive/script_v3.py:123-148 | Refusal happens exactly for a negative principal, rate or duration value. A zero duration is accepted. The amount is the principal plus the interest. |
| ArchiveV3.UnitTableAgreesWithCurrent | archive/script_v3.py:123-130 | On the four known units the day count equals that of the current version. An unknown unit counts as days here and as 0 days (hence refused) in the current version. |
| ArchiveV3.ZeroDurationNoInterest | archive/script_v3.py:132-148 | A zero duration returns the principal with no interest. |
| ArchiveV3.AgreesWithCurrentFinalAmount | archive/script_v3.py:137-148 | For a whole number of days, with a known unit and frequency, the single result equals the final amount and interest of the current version's daily series. |

## Left out

- The power `**` is a parameter. IEEE rounding, overflow to infinity or NaN, and any monotonicity of the power are outside the model. The only law assumed, as a hypothesis, is that anything to the power 0 is 1.
- Number formatting of the labels and of the annotation, and its `OverflowError` fallback to scientific notation, are left out: they are string formatting of floats. The labels are modelled by the values they format.
- Parsing of the entry contents with `float`/`int`, and the `ValueError` handler, are left out. The model takes parsed numbers. The hover principal is an `Option` whose `None` stands for a parse failure.
- Widget construction, layout, theming, fonts, locale, the message boxes, the button state, `update_rate_helper_text`, `toggle_custom_days_entry` and all drawing calls are UI plumbing over libraries that are not part of this model. CalculatorV4 records only which curve is on the axes.
- In script.py an empty series redraws the placeholder axes. Only `current_plot_info` is modelled there, and it is left unchanged in that case, as the source leaves it.
- Hover.OnHover: when the period lookup fails, the annotation has already been moved to the new point. That partial update of the annotation object is not modelled.
- Both `update_plot` methods are split into helper methods so that each proof stays small: script.py's into the stride choice, `AppendStrided` for the loop and `AppendLast` for the tail; script_v4.py's into `Coordinates`, `StridedCoordinates` and `WithLastCoordinate`. The steps and the x coordinate are computed as in the source; no promise is weakened by the split.
- The `KeyError` raised by `update_plot` when it is called from the chart-period selector, outside `calculate`'s handler, is reported as a false result and not as an uncaught exception.
