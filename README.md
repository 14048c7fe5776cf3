# MarathonMentor training-plan generator in Dafny

This project models the core of MarathonMentor's training-plan generator. That core has five parts.

- **Date check.** A runner gives the date of their marathon. It must fall between 90 and 365 days from today. Otherwise the plan is rejected with a message.
- **Plan creation.** If the date passes, a `MarathonPlan` is saved.
- **Phase split.** The weeks from the first Monday on or after today to the week before the race are cut into three phases:
  - phase 1: about half of the days, rounded out to whole Monday–Sunday weeks;
  - phase 2: about a third, also in whole weeks;
  - phase 3: whatever is left.
- **Phase runs.** For every week of every phase, seven `ScheduledRun`s are generated from the runner's fitness tier and the phase. A run is one of three kinds:
  - a rest day;
  - a distance run, whose distance grows linearly from the phase's low to its high;
  - an interval session, whose sets grow with banker's rounding.
- **Taper week.** The days after phase 3 up to the next Sunday are cleared. Then a fixed taper week is written that ends on race day.

Around that core the project also models:
- the two form validations for the race date and the date of birth;
- the `mm:ss` template filter for durations;
- the greeting for the hour of the day;
- the parse of an `M:S` pace string sent with a completed run.

## Modules

- `wrappers.dfy` (`Wrappers`): `Option` and `Result`.
- `dates.dfy` (`Dates`):
  - days as Python date ordinals;
  - `date.weekday()`, the "step forward to a weekday" loop, and `date.toordinal()` for the proleptic Gregorian calendar.
- `decimal.dfy` (`Decimal`): decimal numerals. These cover `str(n)`, `int(s)` on digit strings, and the `:02` zero-fill format.
- `catalog.dfy` (`Catalog`): the tables `WEEK`, `MIN_DAYS`, `MAX_DAYS`, `BASIC_PLANS`, `DEFAULT_RUNS` and `LAST`, transcribed as datatypes, with lemmas about their shape.
- `run_store.dfy` (`RunStore`):
  - the `Runner`, `MarathonPlan` and `ScheduledRun` records;
  - `Database`, a class holding the saved plans and runs as sequences;
  - the date-range delete.
- `plan_formulas.dfy` (`PlanFormulas`): the pure arithmetic of the generator. This covers:
  - the phase split;
  - run dates and interpolated distances;
  - round-half-even interval progression;
  - every run a phase produces, as a specification of the loops;
  - the taper week;
  - the outcome of `create_runs_in_plan` as one function, `CreateRunsOutcome`.
- `plan_algo.dfy` (`PlanAlgo`): the class `NewMarathonPlan`. It has the source's fields and methods. The nested loops are written as `while` loops with invariants, proved against the functions of `PlanFormulas`.
- `plan_properties.dfy` (`PlanProperties`): whole-plan properties. They include:
  - every day from the first Monday to race day gets exactly one run, in date order;
  - distances and sets never fall within a phase;
  - a one-week phase 3 raises;
  - the taper delete is not limited to the runner's own plan;
  - worked splits for a race 90 and 91 days away.
- `forms.dfy` (`Forms`): `clean_date_of_marathon` and `clean_dob`.
- `custom_filters.dfy` (`CustomFilters`): `format_timedelta`.
- `views.dfy` (`Views`):
  - `calc_greeting`;
  - `str.split` with one separator;
  - the pace parse, together with the round trip from `format_timedelta`.

## How the source is represented

**Dates.**
- Dates are integers: the proleptic Gregorian ordinal of `date.toordinal()`, so 0001-01-01 is 1. `Weekday(d) == (d + 6) % 7`, with Monday as 0.
- The clock (`date.today()`, `datetime.now().hour`) is a parameter.

**Phase split.**
- The source computes `phase1_days = (3/6) * total_days` and `phase2_days = (2/6) * total_days` as floats. It then adds `timedelta(days=phase1_days - 1)` to phase 1's start, and `timedelta(days=phase2_days - 1)` to phase 2's start.
- A `timedelta` keeps a fractional day, to the microsecond: a half day is 43200 seconds. Adding it to a `date` keeps only its whole days. So the offsets are `total_days / 2 - 1` and `total_days / 3 - 1` rounded down, and the model writes them that way.
- `3/6` is exactly 0.5. `2/6` is not exactly 1/3. The floor is still right for T in 90..365:
  - when 3 divides T, the double product `(2/6) * T` rounds back to the integer T/3;
  - otherwise the fractional part of T/3 is 1/3 or 2/3, far above the rounding error.
- `weeks = (end - start).days // 7 + 1` uses floor division. The model uses Dafny's Euclidean division, which agrees with floor division because the divisor is positive.

**Distances.**
- `_calculate_distance` divides by `weeks_in_phase - 1`. With a one-week phase that raises `ZeroDivisionError`, and the source does not catch it.
- The model returns `Err(ZeroDivision)`. The phase loop then stops where the source would have stopped, keeping the runs already saved.
- `create_runs_in_plan` reports this as `completed == false`. The exception passes through the remaining calls, so no further phase is scheduled and no taper week is written.
- This can only happen in phase 3, because phases 1 and 2 always have at least 7 and 5 weeks. It happens for example with a race 91 days after a Monday.

**Rounding.** Python's `round` on `diff * week / weeks` is round-half-even on an exact rational. The model computes it on integers as `RoundHalfEven(diff * week, weeks)`.

**Pace.** Paces are real numbers of minutes per kilometre. `timedelta(minutes=pace)`, which rounds to microseconds, is not modelled.

**Database.**
- `Database` holds the plans and runs in save order. `SavePlan` gives ids 1, 2, 3 and so on.
- `ScheduledRun.objects.filter(date__range=(a, b)).delete()` keeps the runs outside `[a, b]` in their order, whatever plan they belong to. The source does the same.

## Model

| member | source | states |
|---|---|---|
| Dates.Weekday | training_plan/utils/plan_algo.py:150-152 | `date.weekday()` of an ordinal is a day number 0..6 |
| Dates.WeekdayAfter | training_plan/utils/plan_algo.py:150-152 | moving n days forward moves the weekday n steps round the week |
| Dates.OnOrAfter | training_plan/utils/plan_algo.py:150-157 | the "add a day until it is a Monday/Sunday" loop ends on that weekday within six days of the start |
| Dates.OnOrAfterIsFirst | training_plan/utils/plan_algo.py:150-157 | no day the loop steps over has the weekday sought, so the loop stops at the first one |
| Dates.SundayAfterSpan | training_plan/utils/plan_algo.py:155-165 | from a Monday, the first Sunday on or after the n-th day closes week ceil(n/7) |
| Dates.DaysBeforeMonth | training_plan/forms.py:160-172 | the days before month m plus the days of m stay within the year's length, leap years included |
| Dates.DaysBeforeMonthCumulative | training_plan/forms.py:160-172 | the days-before-month table starts at 0 for January and adds each month's length, February 29 days in leap years |
| Dates.YearLength | training_plan/forms.py:160-172 | consecutive 1 January ordinals are 365 or 366 days apart by the Gregorian leap rule |
| Dates.DaysBeforeYearMonotone | training_plan/forms.py:160-172 | every year has at least 365 days, so ordinals of 1 January grow with the year |
| Dates.ToOrdinal | training_plan/forms.py:160-172 | `date.toordinal()` of a valid calendar date falls inside its own year |
| Dates.EarlierYearEarlierDate | training_plan/forms.py:164-172 | any date of an earlier year is an earlier date, the order `date` comparisons use |
| Decimal.DigitChar | training_plan/forms.py:132-138 | a digit 0..9 is written as an ASCII digit |
| Decimal.Show | training_plan/forms.py:132-138 | `str(n)` is a numeral without leading zeros, and a single digit exactly when n < 10 |
| Decimal.ValueOfShow | training_plan/forms.py:132-138 | reading back `str(n)` gives n |
| Decimal.Zeros | training_plan/templatetags/custom_filters.py:40 | the padding of `:02` is k zero digits |
| Decimal.ZeroFill | training_plan/templatetags/custom_filters.py:40 | `f"{n:02}"` is a numeral whose value is n, at least `width` long, and equal to `str(n)` when that is already wide enough |
| Catalog.WeekIsTheSevenDays | training_plan/utils/p_a_constants.py:6 | `WEEK` lists the seven days once each, Monday first and Sunday last |
| Catalog.RunIdFor | training_plan/utils/p_a_constants.py:13-101 | each plan slot of `BASIC_PLANS` names a `DEFAULT_RUNS` entry that is never race day; the entry is a rest day exactly for id 0 and intervals exactly for id 5, and otherwise a distance run; Monday is always a distance run |
| Catalog.TemplateRunKind | training_plan/utils/p_a_constants.py:104-393 | ids 0..6 of `DEFAULT_RUNS` are rest (0), intervals (5) or distance runs (the others) |
| Catalog.BasicPlansComplete | training_plan/utils/p_a_constants.py:13-101 | every tier and phase of `BASIC_PLANS` gives an id 0..6 for each of the seven days, with id 2 on Monday |
| Catalog.DistanceRange | training_plan/utils/p_a_constants.py:120-449 | each distance range has 1 <= low <= high, and in phase 3 the runs 1–4 have low == high |
| Catalog.DistanceRangesWellFormed | training_plan/utils/p_a_constants.py:120-449 | the same, stated on the `DEFAULT_RUNS` table itself |
| Catalog.FirstDuration | training_plan/utils/p_a_constants.py:104-469 | every non-rest entry has a `first_duration` of at least one minute per tier |
| Catalog.IntervalEntry | training_plan/utils/p_a_constants.py:348-393 | the interval entry has on == off == 4 and 1 <= low <= high sets per tier and phase |
| Catalog.RaceDayEntry | training_plan/utils/p_a_constants.py:457-469 | race day is 42 km, planned at 240/210/180 minutes by tier |
| Catalog.TaperWeekWellFormed | training_plan/utils/p_a_constants.py:474-511 | `LAST`: rest Mon/Wed/Sat, 4×(4 on, 4 off) intervals Tue, 12 km Thu/Fri at 70/60/50 minutes, race on Sunday |
| RunStore.RemoveDateRange | training_plan/utils/plan_algo.py:273-278 | the date-range delete never adds runs |
| RunStore.RemoveDateRangeMembers | training_plan/utils/plan_algo.py:273-278 | a run survives the delete exactly when it was stored and its date is outside the inclusive range |
| RunStore.RemoveDateRangeNone | training_plan/utils/plan_algo.py:273-278 | with nothing in range the store is unchanged |
| RunStore.RemoveDateRangeAll | training_plan/utils/plan_algo.py:273-278 | with everything in range the store is emptied |
| RunStore.RemoveDateRangeAppend | training_plan/utils/plan_algo.py:273-278 | the delete works run by run, so it distributes over concatenation |
| RunStore.Database.SavePlan | training_plan/utils/plan_algo.py:125-128 | saving a plan appends it with the next id and leaves the runs alone |
| RunStore.Database.SaveRun | training_plan/utils/plan_algo.py:236-249 | saving a run appends it and leaves the plans alone |
| RunStore.Database.DeleteRunsInDateRange | training_plan/utils/plan_algo.py:273-278 | the runs become the ones dated outside the range, in order |
| PlanFormulas.AllowedWindow | training_plan/utils/plan_algo.py:98-100 | a race exactly 90 or 365 days away is accepted, 89 or 366 days is not, and every accepted race is after today |
| PlanFormulas.PhaseBoundaries | training_plan/utils/plan_algo.py:142-170 | phase 1 starts on the first Monday on or after today; phases 1 and 2 end on the first Sunday on or after start + ⌊T/2⌋ − 1 and start + ⌊T/3⌋ − 1; each next phase starts the following Monday; phase 3 ends seven days before the race |
| PlanFormulas.PhaseWeekBounds | training_plan/utils/plan_algo.py:142-175 | for an allowed race date, phases 1 and 2 are whole weeks (at least 7 and 5), phase 3 has 0..8 weeks, and its weeks end on the Sunday of the race-minus-seven week |
| PlanFormulas.PhaseSplitShape | training_plan/utils/plan_algo.py:142-175 | the split of an allowed race date has that whole-week shape, ends phase 3 at race − 7, and starts within a week of today |
| PlanFormulas.DayNumber | training_plan/utils/plan_algo.py:426-434 | the day-name mapping gives 0..6 |
| PlanFormulas.DayNumbersOfWeek | training_plan/utils/plan_algo.py:426-434 | the mapping numbers `WEEK` in order, Monday 0 to Sunday 6 |
| PlanFormulas.RunDate | training_plan/utils/plan_algo.py:409-438 | a run's date has the named weekday and lies in the given week; from a Monday it is start + 7·week + day |
| PlanFormulas.InterpolateMonotone | training_plan/utils/plan_algo.py:355-361 | the linear interpolation never decreases from week to week |
| PlanFormulas.InterpolateBetween | training_plan/utils/plan_algo.py:355-361 | it starts at low in week 0, reaches high in the last week, and stays between them |
| PlanFormulas.CalculateDistance | training_plan/utils/plan_algo.py:335-361 | `_calculate_distance` raises exactly for a one-week phase; otherwise it is low in week 0, high in the last week, and between them in every week |
| PlanFormulas.RoundHalfEven | training_plan/utils/plan_algo.py:386 | `round(p/q)` is within half a unit of p/q, and at an exact half it is even |
| PlanFormulas.RoundHalfEvenMonotone | training_plan/utils/plan_algo.py:386 | `round` never decreases as its argument grows |
| PlanFormulas.RoundHalfEvenExact | training_plan/utils/plan_algo.py:386 | `round` of a whole number is that number |
| PlanFormulas.WeeklyValue | training_plan/utils/plan_algo.py:382-391 | `calculate_weekly_value` is low in week 0 and high in week `weeks`, and between them |
| PlanFormulas.WeeklyStepBetween | training_plan/utils/plan_algo.py:382-391 | the rounded step is 0 at week 0, the whole difference at week `weeks`, and between them |
| PlanFormulas.WeeklyValueMonotone | training_plan/utils/plan_algo.py:382-391 | the weekly value never decreases from week to week |
| PlanFormulas.IntervalProgression | training_plan/utils/plan_algo.py:363-406 | on and off stay 4 minutes; the sets stay within the tier's and phase's range |
| PlanFormulas.PhaseRun | training_plan/utils/plan_algo.py:207-249 | one slot's run raises exactly when the phase has one week and the slot is a distance run |
| PlanFormulas.PhaseRunIdentity | training_plan/utils/plan_algo.py:236-249 | the run carries the slot's dict id, its name and feel, the plan and `_calculate_run_date`'s date |
| PlanFormulas.PhaseRestRun | training_plan/utils/plan_algo.py:210-214 | a rest slot has zero distance, duration, pace, on, off and sets |
| PlanFormulas.PhaseDistanceRun | training_plan/utils/plan_algo.py:215-222 | a distance slot's distance is within its range, its duration is the tier's first duration, and pace × distance equals duration |
| PlanFormulas.PhaseIntervalRun | training_plan/utils/plan_algo.py:223-234 | an interval slot has no distance, 4/4 minutes, sets within range, duration (on+off)·sets and the tier's fixed pace |
| PlanFormulas.Pace | training_plan/utils/plan_algo.py:219-220 | `1 / (distance / duration)` is positive and is the minutes per kilometre |
| PlanFormulas.PhaseOutcomes | training_plan/utils/plan_algo.py:205-206 | the nested loops visit 7 × weeks slots |
| PlanFormulas.OksUntilErrPrefix | training_plan/utils/plan_algo.py:205-249 | the saved runs are the results up to the first exception, and the exception is where saving stopped |
| PlanFormulas.TaperRunsUpTo | training_plan/utils/plan_algo.py:281-333 | the taper loop saves one run per day it visits |
| PlanFormulas.PhaseOutcomeAt | training_plan/utils/plan_algo.py:205-208 | slot 7·week + j of the loop order is day `WEEK[j]` of that week |
| PlanFormulas.PhaseCompletes | training_plan/utils/plan_algo.py:205-249 | a loop that finished every slot has saved all the runs of the phase |
| PlanFormulas.PhaseStopsAtFault | training_plan/utils/plan_algo.py:216-217 | a loop that hit an exception has saved exactly the runs before it |
| PlanAlgo.NewMarathonPlan.constructor | training_plan/utils/plan_algo.py:79-83 | the plan object records the runner, their race date, today and no plan yet |
| PlanAlgo.NewMarathonPlan.ValidateMarathonDate | training_plan/utils/plan_algo.py:86-100 | it raises (gives the message) exactly when the race is under 90 or over 365 days away |
| PlanAlgo.NewMarathonPlan.CreatePlan | training_plan/utils/plan_algo.py:103-128 | a plan is created exactly for an allowed date, saved with the next id, today and the race date; otherwise it returns the prefixed message and nothing changes |
| PlanAlgo.NewMarathonPlan.CreateRunsInPlan | training_plan/utils/plan_algo.py:131-182 | the store and the completed flag afterwards are `CreateRunsOutcome` of the old store and the phase split |
| PlanAlgo.NewMarathonPlan.SplitPhases | training_plan/utils/plan_algo.py:142-175 | the loops and arithmetic compute `PhaseSplit(today, race)` |
| PlanAlgo.NewMarathonPlan.StepToWeekday | training_plan/utils/plan_algo.py:150-157 | the day-by-day loop ends at `OnOrAfter(d, w)` |
| PlanAlgo.NewMarathonPlan.ScheduleRunsForPhase | training_plan/utils/plan_algo.py:185-249 | the store gains exactly the phase's runs in loop order, up to an exception; it completes exactly when no slot raised |
| PlanAlgo.NewMarathonPlan.ScheduleRunsForTaper | training_plan/utils/plan_algo.py:251-333 | the store loses every run dated in the taper window and gains the seven taper runs |
| PlanProperties.PhaseCompletedIff | training_plan/utils/plan_algo.py:205-222 | a phase schedules all its runs exactly when it is not one week long; a one-week phase saves nothing, since Monday is a distance run |
| PlanProperties.AllPhaseRunsAt | training_plan/utils/plan_algo.py:205-249 | the run saved at position 7·week + day is that slot's run |
| PlanProperties.PhaseRunsDaily | training_plan/utils/plan_algo.py:205-249 | a completed phase starting on a Monday saves one run per day, on consecutive dates |
| PlanProperties.DistanceNeverFalls | training_plan/utils/plan_algo.py:215-222 | a slot's distance never falls from week to week, from the range's low in the first week to its high in the last |
| PlanProperties.SetsNeverFall | training_plan/utils/plan_algo.py:223-234 | the interval sets never fall from week to week and start at the range's low |
| PlanProperties.WeeklyValueReachesHighEarly | training_plan/utils/plan_algo.py:382-391 | round-half-even reaches the high value of 3 sets in week 6 of 7 |
| PlanProperties.NegativeSpanNoWeeks | training_plan/utils/plan_algo.py:173-175 | a phase that ends before it starts has zero weeks, by floor division |
| PlanProperties.TaperWindowIsSunday | training_plan/utils/plan_algo.py:265-269 | the delete window ends on the first Sunday on or after phase 3's end |
| PlanProperties.TaperWeek | training_plan/utils/plan_algo.py:281-333 | the taper is seven runs on the seven days after phase 3, with `LAST`'s ids in order |
| PlanProperties.TaperRunAttributes | training_plan/utils/plan_algo.py:281-333 | each taper run's distance, duration, pace and sets are those of `LAST` and race day |
| PlanProperties.TaperEndsWithRace | training_plan/utils/plan_algo.py:305-310 | the last taper run is the 42 km race, seven days after phase 3's end |
| PlanProperties.CreateRunsCompletedIff | training_plan/utils/plan_algo.py:179-182 | phases 1 and 2 always complete, and the whole call completes exactly when phase 3 is not one week |
| PlanProperties.CreateRunsFinished | training_plan/utils/plan_algo.py:179-182 | when it completes, the old store loses the taper window and gains the phase runs (cut at phase 3's end) and the taper week |
| PlanProperties.CreateRunsRaises | training_plan/utils/plan_algo.py:179-182 | with a one-week phase 3 the store keeps phases 1 and 2 and no taper is written |
| PlanProperties.PhasesDaily | training_plan/utils/plan_algo.py:179-181 | the three phases together give one run per day from phase 1's Monday to the taper window's Sunday |
| PlanProperties.PhasesCut | training_plan/utils/plan_algo.py:273-278 | on such daily runs the taper delete cuts exactly the days after phase 3's end |
| PlanProperties.PhasesKept | training_plan/utils/plan_algo.py:273-278 | what is kept of the phase runs is one run per day up to phase 3's end |
| PlanProperties.GeneratedRunsDaily | training_plan/utils/plan_algo.py:179-333 | the generated plan is one run per day from phase 1's Monday to the race, ending with the 42 km race |
| PlanProperties.CreateRunsCoversPlan | training_plan/utils/plan_algo.py:131-182 | for an allowed date without a one-week phase 3, `create_runs_in_plan` completes and appends such a plan |
| PlanProperties.PlanRunsToRaceDay | training_plan/utils/plan_algo.py:131-182 | that plan starts within a week of today on a Monday and runs day by day to the race |
| PlanProperties.TaperDeleteIsUnscoped | training_plan/utils/plan_algo.py:273-278 | another plan's run dated in the taper window is deleted too |
| PlanProperties.NewYear2024 | training_plan/utils/plan_algo.py:150-152 | 2024-01-01 has ordinal 738886 and is a Monday |
| PlanProperties.NinetyOneDaysRaises | training_plan/utils/plan_algo.py:173-182 | a race 91 days after a Monday is allowed but gives a one-week phase 3, so the taper is never written |
| PlanProperties.NinetyDaysSplit | training_plan/utils/plan_algo.py:142-175 | a race 90 days after a Monday splits into 7, 5 and 0 weeks; phase 3 then ends on phase 2's last Sunday, so the taper's delete window is empty |
| PlanProperties.MondaySplit | training_plan/utils/plan_algo.py:142-175 | the split of 90 and 91 days from a Monday, date by date |
| PlanProperties.SplitBySteps | training_plan/utils/plan_algo.py:142-175 | the split's fields follow from its three intermediate dates |
| Forms.MarathonMessages | training_plan/forms.py:132-138 | the messages spell 90 and 365 |
| Forms.CleanDateOfMarathon | training_plan/forms.py:115-140 | a missing date passes; a date passes exactly when it is 90..365 days away, and the date is returned; every rejection is one of the three messages |
| Forms.MarathonRejections | training_plan/forms.py:128-138 | past or today, under 90 days and over 365 days each give their own message |
| Forms.CleanDob | training_plan/forms.py:142-174 | a missing date gets "required"; `today − 120·365 days` overflows before year 121; otherwise the date passes exactly when the age is at least 18 and it lies between the limit and today |
| Forms.CleanDobRejections | training_plan/forms.py:164-172 | once the limit is computed, an age under 18 raises the "at least 18" message and an adult born before the 120-year limit the "valid date of birth" message |
| Forms.AdultBornEarlier | training_plan/forms.py:161-169 | an age of at least one means the birth date is before today |
| Forms.DobFutureCheckUnreachable | training_plan/forms.py:164-169 | the "in the future" message is never produced, because the age check rejects such dates first |
| Forms.DobOverflowOnlyInYearsBefore121 | training_plan/forms.py:160 | from year 121 on the date limit does not overflow |
| CustomFilters.FormatTimedelta | training_plan/templatetags/custom_filters.py:37-40 | `format_timedelta` is the two zero-filled parts of `divmod(td.seconds, 60)` joined by ':', five to seven characters long |
| CustomFilters.TwoDigitsOrFour | training_plan/templatetags/custom_filters.py:40 | minutes of a day take two to four digits, and seconds exactly two |
| CustomFilters.FormatIgnoresDays | training_plan/templatetags/custom_filters.py:39 | days and microseconds do not affect the shown value |
| Views.CalcGreeting | training_plan/views.py:229-247 | morning for 4..11, afternoon 12..16, evening 17..22, night otherwise, each in both directions |
| Views.GreetingIsOneOfFour | training_plan/views.py:236-247 | every hour gets one of the four greetings |
| Views.Split | training_plan/views.py:350 | `split` gives at least one piece |
| Views.SplitJoin | training_plan/views.py:350 | joining the pieces with the separator gives the string back, and no piece holds the separator |
| Views.ParseInt | training_plan/views.py:351-352 | `int(s)` succeeds exactly on a digit string and gives its value |
| Views.ParsePace | training_plan/views.py:350-352 | the parse succeeds exactly when the first two pieces are numerals, giving 60·minutes + seconds; `IndexError` exactly when the minutes read and there is no second piece |
| Views.ParseFormattedPace | training_plan/views.py:350-352 | reading back `format_timedelta`'s output gives the timedelta's seconds |

## Left out

- Persistence, transactions and Django ORM coercion are not modelled. This covers `save()`, the foreign key, the `PositiveIntegerField` columns `distance` and `est_duration`, and the `DurationField` `est_avg_pace`. `Database` keeps two in-memory sequences.
- PlanFormulas.CalculateDistance: the source computes the distance `low + (high - low) / (weeks - 1) * i` in IEEE double precision, and the model uses exact reals. The stored `ScheduledRun.distance` is a `PositiveIntegerField`, so the saved row holds the distance truncated to an integer, which the model does not do. After that truncation, "pace × distance == duration" (`PlanFormulas.PhaseDistanceRun`, `PlanFormulas.Pace`) holds of the run as computed, not of the stored row.
- `timedelta(minutes=pace)` is not modelled. Paces are exact reals, so the microsecond rounding of `timedelta` is lost.
- The clock is a parameter: `date.today()` in the plan and the forms, and `datetime.now().hour` in the greeting.
- The views other than `calc_greeting` and the pace parse are not modelled. They are request handling, templates and the Strava calls.
- `t.py`, `plan_algo_bu.py`, `models.py` (beyond the record fields the core uses), the JavaScript, `urls.py` and `admin.py` are not part of this model.
- Views.ParseInt: Python's `int()` also accepts a sign, surrounding whitespace, underscores between digits and non-ASCII digits. The model accepts ASCII digit strings only, and anything else is a `ValueError`.
- Views.ParsePace: a `KeyError` for a payload without `"pace"` is not modelled. The function takes the pace string itself.
- PlanAlgo.NewMarathonPlan.CreateRunsInPlan requires a saved plan (`plan.Some?`). In the source, calling `create_runs_in_plan` before `create_plan` saves runs pointing at `None`, which the database refuses.
- PlanAlgo.NewMarathonPlan.ScheduleRunsForPhase and PlanAlgo.NewMarathonPlan.ScheduleRunsForTaper require a saved plan for the same reason.
- RunStore.RemoveDateRange: its own contract only bounds the length. Which runs survive is stated in `RunStore.RemoveDateRangeMembers`.
- Forms.CleanDob takes dates as valid calendar triples. A `dob` outside the `date` range cannot reach the form.
- `_calculate_duration` is named in the docstrings of `plan_algo.py` but is not defined there, so it is not modelled.
