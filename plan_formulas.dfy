/**
 * The computations of the marathon plan generator that are plain expressions:
 * the race-date check, the 3:2:1 phase split, the distance and interval
 * progressions, the run date, and the run each (week, day) slot of a phase and
 * each day of the taper week produce. The generator's methods (module PlanAlgo)
 * are proved against these.
 */
module PlanFormulas {
  import opened Wrappers
  import opened Dates
  import opened Catalog
  import opened RunStore

  /** The condition `_validate_marathon_date` checks: the race is MIN_DAYS to MAX_DAYS days away, both included. */
  predicate MarathonDateAllowed(today: Date, race: Date) {
    today + MIN_DAYS <= race <= today + MAX_DAYS
  }

  /**
   * The window holds both of its ends and nothing beyond them, and every date it
   * allows lies strictly after today.
   */
  lemma AllowedWindow(today: Date)
    ensures MarathonDateAllowed(today, today + MIN_DAYS) && MarathonDateAllowed(today, today + MAX_DAYS)
    ensures !MarathonDateAllowed(today, today + MIN_DAYS - 1) && !MarathonDateAllowed(today, today + MAX_DAYS + 1)
    ensures forall race :: MarathonDateAllowed(today, race) ==> today < race
  {
  }

  // ---------------------------------------------------------------- phase split

  datatype Phases = Phases(
    phase1Start: Date, phase1End: Date,
    phase2Start: Date, phase2End: Date,
    phase3Start: Date, phase3End: Date,
    phase1Weeks: int, phase2Weeks: int, phase3Weeks: int)

  /** `(end - start).days // 7 + 1`, with `//` flooring as Python's does. */
  function WeeksInPhase(start: Date, end: Date): int {
    (end - start) / 7 + 1
  }

  /**
   * The phase boundaries `create_runs_in_plan` computes. `phase1_days - 1` and
   * `phase2_days - 1` are floats (`(3/6) * total_days - 1`, `(2/6) * total_days - 1`);
   * a `timedelta` keeps them to the microsecond and adding it to a date keeps its
   * whole days, so the offsets are `total_days / 2 - 1` and `total_days / 3 - 1`
   * rounded down.
   */
  function PhaseSplit(today: Date, race: Date): Phases {
    var totalDays := race - today;
    var phase1Start := OnOrAfter(today, MONDAY);
    var phase1End := OnOrAfter(phase1Start + totalDays / 2 - 1, SUNDAY);
    var phase2Start := phase1End + 1;
    var phase2End := OnOrAfter(phase2Start + totalDays / 3 - 1, SUNDAY);
    var phase3Start := phase2End + 1;
    var phase3End := race - 7;
    Phases(phase1Start, phase1End, phase2Start, phase2End, phase3Start, phase3End,
           WeeksInPhase(phase1Start, phase1End),
           WeeksInPhase(phase2Start, phase2End),
           WeeksInPhase(phase3Start, phase3End))
  }

  /**
   * Phase 1 starts on the first Monday on or after today; phases 1 and 2 end on a
   * Sunday at least half (a third) of the total days after their start, and the
   * next phase starts the day after, on a Monday; phase 3 ends a week before the
   * race.
   */
  lemma PhaseBoundaries(today: Date, race: Date)
    ensures var ph := PhaseSplit(today, race);
      && today <= ph.phase1Start <= today + 6 && Weekday(ph.phase1Start) == MONDAY
      && (forall d :: today <= d < ph.phase1Start ==> Weekday(d) != MONDAY)
      && Weekday(ph.phase1End) == SUNDAY
      && ph.phase1Start + (race - today) / 2 - 1 <= ph.phase1End <= ph.phase1Start + (race - today) / 2 + 5
      && ph.phase2Start == ph.phase1End + 1 && Weekday(ph.phase2Start) == MONDAY
      && Weekday(ph.phase2End) == SUNDAY
      && ph.phase2Start + (race - today) / 3 - 1 <= ph.phase2End <= ph.phase2Start + (race - today) / 3 + 5
      && ph.phase3Start == ph.phase2End + 1 && Weekday(ph.phase3Start) == MONDAY
      && ph.phase3End == race - 7
  {
    var ph := PhaseSplit(today, race);
    forall d | today <= d < ph.phase1Start ensures Weekday(d) != MONDAY {
      OnOrAfterIsFirst(today, MONDAY, d);
    }
    WeekdayAfter(ph.phase1End, 1);
    WeekdayAfter(ph.phase2End, 1);
  }

  /**
   * For an allowed race date: phases 1 and 2 are whole weeks, at least 7 and 5 of
   * them; phase 3 gets 0 to 8 weeks, and its scheduled weeks end on the Sunday of
   * the week holding `phase3_end` (for 0 weeks that Sunday is the end of phase 2).
   */
  lemma {:induction false} PhaseWeekBounds(today: Date, race: Date)
    requires MarathonDateAllowed(today, race)
    ensures var ph := PhaseSplit(today, race);
      && ph.phase1End - ph.phase1Start + 1 == 7 * ph.phase1Weeks && ph.phase1Weeks >= 7
      && ph.phase2End - ph.phase2Start + 1 == 7 * ph.phase2Weeks && ph.phase2Weeks >= 5
      && 0 <= ph.phase3Weeks <= 8
      && ph.phase3Start + 7 * ph.phase3Weeks - 1 == ph.phase3End + (6 - Weekday(ph.phase3End))
      && ph.phase1Start <= ph.phase3End + 1
  {
    var ph := PhaseSplit(today, race);
    var t := race - today;
    var c1, c2 := (t / 2 + 6) / 7, (t / 3 + 6) / 7;
    PhaseBoundaries(today, race);
    SundayAfterSpan(ph.phase1Start, t / 2);
    SundayAfterSpan(ph.phase2Start, t / 3);
    assert ph.phase1End - ph.phase1Start + 1 == 7 * c1;
    assert ph.phase2End - ph.phase2Start + 1 == 7 * c2;
    WeeksOfWholeWeeks(ph.phase1Start, ph.phase1End, c1);
    WeeksOfWholeWeeks(ph.phase2Start, ph.phase2End, c2);
    var k := ph.phase1Start - today;
    SplitArithmetic(t, k);
    var span := ph.phase3End - ph.phase3Start;
    assert span == t - 7 - k - 7 * c1 - 7 * c2;
    WeekdayAfter(ph.phase3Start, span);
    assert Weekday(ph.phase3End) == span % 7;
  }

  /**
   * The shape of the split for an allowed race date: three runs of whole weeks
   * from Monday to Sunday, back to back, phases 1 and 2 at least 7 and 5 weeks
   * long, phase 3 up to 8 weeks ending on the Sunday of the week holding
   * `phase3_end`.
   */
  predicate SplitShape(ph: Phases) {
    && Weekday(ph.phase1Start) == MONDAY
    && ph.phase1End - ph.phase1Start + 1 == 7 * ph.phase1Weeks && ph.phase1Weeks >= 7
    && ph.phase2Start == ph.phase1End + 1 && Weekday(ph.phase2Start) == MONDAY
    && ph.phase2End - ph.phase2Start + 1 == 7 * ph.phase2Weeks && ph.phase2Weeks >= 5
    && ph.phase3Start == ph.phase2End + 1 && Weekday(ph.phase3Start) == MONDAY
    && 0 <= ph.phase3Weeks <= 8
    && ph.phase3Start + 7 * ph.phase3Weeks - 1 == ph.phase3End + (6 - Weekday(ph.phase3End))
    && ph.phase1Start <= ph.phase3End + 1
  }

  lemma PhaseSplitShape(today: Date, race: Date)
    requires MarathonDateAllowed(today, race)
    ensures SplitShape(PhaseSplit(today, race))
    ensures PhaseSplit(today, race).phase3End == race - 7
    ensures today <= PhaseSplit(today, race).phase1Start <= today + 6
  {
    PhaseBoundaries(today, race);
    PhaseWeekBounds(today, race);
  }

  lemma WeeksOfWholeWeeks(start: Date, end: Date, c: int)
    requires end - start + 1 == 7 * c
    ensures WeeksInPhase(start, end) == c
  {
  }

  /** The day counts behind PhaseWeekBounds, for 90 to 365 days and a first Monday k days after today. */
  lemma SplitArithmetic(t: int, k: int)
    requires MIN_DAYS <= t <= MAX_DAYS && 0 <= k <= 6
    ensures (t / 2 + 6) / 7 >= 7 && (t / 3 + 6) / 7 >= 5
    ensures -7 <= t - 7 - k - 7 * ((t / 2 + 6) / 7) - 7 * ((t / 3 + 6) / 7) <= 62
  {
    var c1, c2 := (t / 2 + 6) / 7, (t / 3 + 6) / 7;
    if t < 100 {
      assert c1 == 7 && c2 == 5;
    } else if t < 108 {
      assert c1 == 8 && c2 == 5;
    } else {
      assert 7 * c1 <= t / 2 + 6 && 7 * c2 <= t / 3 + 6;
    }
  }

  // ---------------------------------------------------------- run attributes

  /** `days_mapping` in `_calculate_run_date`: the weekday number of a day key. */
  function DayNumber(d: Day): (n: int)
    ensures 0 <= n < 7
  {
    match d
    case Mon => 0
    case Tue => 1
    case Wed => 2
    case Thu => 3
    case Fri => 4
    case Sat => 5
    case Sun => 6
  }

  lemma DayNumbersOfWeek()
    ensures forall i :: 0 <= i < |WEEK| ==> DayNumber(WEEK[i]) == i
  {
  }

  /**
   * `_calculate_run_date(start, day, week)`: the date in the week-th week counted
   * from start that falls on `day`.
   */
  function RunDate(start: Date, day: Day, week: int): (r: Date)
    ensures Weekday(r) == DayNumber(day)
    ensures start + 7 * week <= r <= start + 7 * week + 6
    ensures Weekday(start) == MONDAY ==> r == start + 7 * week + DayNumber(day)
  {
    var delta := DayNumber(day) - Weekday(start);
    var shift := if delta < 0 then delta + 7 else delta;
    WeekdayAfter(start, week * 7 + shift);
    week * 7 + start + shift
  }

  /** The exception the interpreter raises on a division by zero. */
  datatype Fault = ZeroDivision

  /** `low + (high - low) / (weeks - 1) * i`, in exact arithmetic. */
  function Interpolate(low: int, high: int, weeks: int, i: int): real
    requires weeks != 1
  {
    low as real + (high - low) as real / (weeks - 1) as real * i as real
  }

  /** Over weeks 0 .. weeks - 1 the distance climbs from low to high and never falls. */
  lemma InterpolateMonotone(low: int, high: int, weeks: int, i: int, j: int)
    requires weeks >= 2 && low <= high && i <= j
    ensures Interpolate(low, high, weeks, i) <= Interpolate(low, high, weeks, j)
  {
    var step := (high - low) as real / (weeks - 1) as real;
    assert step >= 0.0;
    assert step * j as real - step * i as real == step * (j - i) as real;
  }

  /** The distance starts at low, ends at high in week weeks - 1, and stays between them. */
  lemma InterpolateBetween(low: int, high: int, weeks: int, i: int)
    requires weeks != 1 && low <= high
    ensures Interpolate(low, high, weeks, 0) == low as real
    ensures Interpolate(low, high, weeks, weeks - 1) == high as real
    ensures 0 <= i < weeks ==> low as real <= Interpolate(low, high, weeks, i) <= high as real
  {
    if 0 <= i < weeks {
      InterpolateMonotone(low, high, weeks, 0, i);
      InterpolateMonotone(low, high, weeks, i, weeks - 1);
    }
  }

  /**
   * `_calculate_distance`: the distance for week i of a phase of `weeks` weeks.
   * A phase of exactly one week divides by zero.
   */
  function CalculateDistance(id: nat, t: Tier, p: Phase, weeks: int, i: int): (r: Result<real, Fault>)
    requires IsDistanceRun(id)
    ensures r.Err? <==> weeks == 1
    ensures r.Ok? && i == 0 ==> r.value == DistanceRange(id, t, p).low as real
    ensures r.Ok? && i == weeks - 1 ==> r.value == DistanceRange(id, t, p).high as real
    ensures r.Ok? && 0 <= i < weeks ==>
      DistanceRange(id, t, p).low as real <= r.value <= DistanceRange(id, t, p).high as real
  {
    var range := DistanceRange(id, t, p);
    if weeks - 1 == 0 then Err(ZeroDivision)
    else
      InterpolateBetween(range.low, range.high, weeks, i);
      Ok(Interpolate(range.low, range.high, weeks, i))
  }

  /**
   * Python 3's `round(p / q)` for q > 0: the integer nearest p / q, and of two
   * equally near, the even one. (The float quotient of the small integers
   * involved is exact at every tie, so rounding it gives the same.)
   */
  function RoundHalfEven(p: int, q: int): (r: int)
    requires q > 0
    ensures -q <= 2 * (p - r * q) <= q
    ensures (2 * (p - r * q) == q || 2 * (p - r * q) == -q) ==> r % 2 == 0
  {
    var f, rem := p / q, p % q;
    FloorQuotient(p, q);
    if 2 * rem < q then f
    else if 2 * rem > q then f + 1
    else if f % 2 == 0 then f
    else f + 1
  }

  /** The distances from p to the multiples of q just below and just above it. */
  lemma FloorQuotient(p: int, q: int)
    requires q > 0
    ensures p - (p / q) * q == p % q
    ensures p - (p / q + 1) * q == p % q - q
  {
    assert (p / q + 1) * q == (p / q) * q + q;
  }

  /** Rounding to nearest, ties to even, never reverses the order of two quotients. */
  lemma RoundHalfEvenMonotone(p1: int, p2: int, q: int)
    requires q > 0 && p1 <= p2
    ensures RoundHalfEven(p1, q) <= RoundHalfEven(p2, q)
  {
    var r1, r2 := RoundHalfEven(p1, q), RoundHalfEven(p2, q);
    if p1 < p2 {
      assert 2 * ((r1 - r2) * q) < 2 * q by {
        assert (r1 - r2) * q == r1 * q - r2 * q;
      }
      MultiplyBelow(r1 - r2, q);
    }
  }

  lemma MultiplyBelow(a: int, q: int)
    requires q > 0 && a * q < q
    ensures a < 1
  {
  }

  lemma MultiplyAtLeast(a: int, q: int)
    requires a >= 1 && q > 0
    ensures a * q >= q
  {
  }

  /** A quotient that is exactly the integer n rounds to n. */
  lemma RoundHalfEvenExact(n: int, q: int)
    requires q > 0
    ensures RoundHalfEven(n * q, q) == n
  {
    var r := RoundHalfEven(n * q, q);
    assert 2 * (n - r) * q == 2 * (n * q - r * q);
    if r < n {
      MultiplyAtLeast(n - r, q);
    } else if r > n {
      MultiplyAtLeast(r - n, q);
    }
  }

  /**
   * `calculate_weekly_value(low, high, weeks, week)` inside
   * `_calculate_interval_progression`: `low + round((high - low) * week / weeks)`.
   */
  function WeeklyValue(low: int, high: int, weeks: int, week: int): (v: int)
    requires weeks > 0
    ensures week == 0 ==> v == low
    ensures week == weeks ==> v == high
    ensures low <= high && 0 <= week <= weeks ==> low <= v <= high
  {
    WeeklyStepBetween(high - low, weeks, week);
    low + RoundHalfEven((high - low) * week, weeks)
  }

  /** The rounded step `round(diff * week / weeks)` is 0 at week 0, diff at the last week, and between them in between. */
  lemma WeeklyStepBetween(diff: int, weeks: int, week: int)
    requires weeks > 0
    ensures week == 0 ==> RoundHalfEven(diff * week, weeks) == 0
    ensures week == weeks ==> RoundHalfEven(diff * week, weeks) == diff
    ensures 0 <= diff && 0 <= week <= weeks ==> 0 <= RoundHalfEven(diff * week, weeks) <= diff
  {
    RoundHalfEvenExact(0, weeks);
    RoundHalfEvenExact(diff, weeks);
    assert diff * weeks == weeks * diff;
    if 0 <= diff && 0 <= week <= weeks {
      assert 0 * weeks <= diff * week <= diff * weeks;
      RoundHalfEvenMonotone(0 * weeks, diff * week, weeks);
      RoundHalfEvenMonotone(diff * week, diff * weeks, weeks);
    }
  }

  /** The weekly value never decreases from one week to a later one. */
  lemma WeeklyValueMonotone(low: int, high: int, weeks: int, w1: int, w2: int)
    requires weeks > 0 && low <= high && w1 <= w2
    ensures WeeklyValue(low, high, weeks, w1) <= WeeklyValue(low, high, weeks, w2)
  {
    assert (high - low) * w1 <= (high - low) * w2 by {
      assert (high - low) * w2 - (high - low) * w1 == (high - low) * (w2 - w1);
    }
    RoundHalfEvenMonotone((high - low) * w1, (high - low) * w2, weeks);
  }

  /**
   * `_calculate_interval_progression`: on, off and sets for week `week` of a phase
   * of `weeks` weeks. On and off have equal low and high bounds, so they stay 4;
   * sets stay within the catalog's range for the tier and phase.
   */
  function IntervalProgression(t: Tier, p: Phase, weeks: int, week: int): (v: (int, int, int))
    requires weeks > 0
    ensures v.0 == 4 && v.1 == 4
    ensures 0 <= week <= weeks ==>
      DEFAULT_RUNS[INTERVAL_ID].sets.Get(t).Get(p).low <= v.2 <= DEFAULT_RUNS[INTERVAL_ID].sets.Get(t).Get(p).high
  {
    IntervalEntry(t, p);
    var entry := DEFAULT_RUNS[INTERVAL_ID];
    var sets := entry.sets.Get(t).Get(p);
    (WeeklyValue(entry.on, entry.on, weeks, week),
     WeeklyValue(entry.off, entry.off, weeks, week),
     WeeklyValue(sets.low, sets.high, weeks, week))
  }

  /** The fixed estimated pace of an interval run, in minutes per km: 5:30, 4:30, and 3:30 for any other tier. */
  function IntervalPace(t: Tier): real {
    if t == Beginner then 5.5
    else if t == Intermediate then 4.5
    else 3.5
  }

  // ---------------------------------------------------------- phase schedule

  /** The arguments of one `_schedule_runs_for_phase` call, with the plan and the runner's tier. */
  datatype PhaseJob = PhaseJob(planId: nat, tier: Tier, phase: Phase, start: Date, weeks: int)

  /** The weeks `range(weeks_in_phase)` visits: none for a count of 0 or less. */
  function WeeksVisited(job: PhaseJob): nat {
    if job.weeks > 0 then job.weeks else 0
  }

  /** The (week, day) slots the phase's loops visit: 7 per week. */
  function SlotCount(job: PhaseJob): nat {
    7 * WeeksVisited(job)
  }

  /** The run `_schedule_runs_for_phase` saves for week `week` and day `day`, or the fault it raises. */
  function PhaseRun(job: PhaseJob, week: int, day: Day): (r: Result<ScheduledRun, Fault>)
    requires 0 <= week < job.weeks
    ensures r.Err? <==> job.weeks == 1 && IsDistanceRun(RunIdFor(job.tier, job.phase, day))
  {
    var id := RunIdFor(job.tier, job.phase, day);
    var entry := DEFAULT_RUNS[id];
    var date := RunDate(job.start, day, week);
    if id == REST_ID then
      Ok(ScheduledRun(id, entry.name, job.planId, entry.feel, date, 0.0, 0, 0.0, 0, 0, 0))
    else if id != INTERVAL_ID then
      match CalculateDistance(id, job.tier, job.phase, job.weeks, week)
      case Err(fault) => Err(fault)
      case Ok(distance) =>
        var duration := FirstDuration(id, job.tier);
        Ok(ScheduledRun(id, entry.name, job.planId, entry.feel, date, distance, duration, Pace(distance, duration), 0, 0, 0))
    else
      var (on, off, sets) := IntervalProgression(job.tier, job.phase, job.weeks, week);
      Ok(ScheduledRun(id, entry.name, job.planId, entry.feel, date, 0.0, (on + off) * sets,
                      IntervalPace(job.tier), on, off, sets))
  }

  /** A saved phase run carries the slot's run type, its name and feel, this plan and the slot's date. */
  lemma PhaseRunIdentity(job: PhaseJob, week: int, day: Day)
    requires 0 <= week < job.weeks && PhaseRun(job, week, day).Ok?
    ensures var run := PhaseRun(job, week, day).value;
      && run.dictId == RunIdFor(job.tier, job.phase, day)
      && run.run == DEFAULT_RUNS[run.dictId].name && run.runFeel == DEFAULT_RUNS[run.dictId].feel
      && run.planId == job.planId
      && run.date == RunDate(job.start, day, week)
  {
  }

  /** A rest day has no distance, duration, pace or intervals. */
  lemma PhaseRestRun(job: PhaseJob, week: int, day: Day)
    requires 0 <= week < job.weeks && RunIdFor(job.tier, job.phase, day) == REST_ID
    ensures PhaseRun(job, week, day).Ok?
    ensures var run := PhaseRun(job, week, day).value;
      && run.distance == 0.0 && run.estDuration == 0 && run.estAvgPace == 0.0
      && run.on == 0 && run.off == 0 && run.sets == 0
  {
  }

  /**
   * A distance run (in a phase of more than one week) has a distance within the
   * catalog range, the tier's first duration whatever the week, a pace that covers
   * that distance in that duration, and no intervals.
   */
  lemma PhaseDistanceRun(job: PhaseJob, week: int, day: Day)
    requires 0 <= week < job.weeks && job.weeks != 1
    requires IsDistanceRun(RunIdFor(job.tier, job.phase, day))
    ensures PhaseRun(job, week, day).Ok?
    ensures var id, run := RunIdFor(job.tier, job.phase, day), PhaseRun(job, week, day).value;
      && DistanceRange(id, job.tier, job.phase).low as real <= run.distance
      && run.distance <= DistanceRange(id, job.tier, job.phase).high as real
      && run.estDuration == FirstDuration(id, job.tier)
      && run.estAvgPace == Pace(run.distance, run.estDuration)
      && run.on == 0 && run.off == 0 && run.sets == 0
  {
  }

  /**
   * An interval run has no distance, 4 minutes on and 4 off, the week's number of
   * sets within the catalog range, their total time as its duration, and the tier's
   * fixed pace.
   */
  lemma PhaseIntervalRun(job: PhaseJob, week: int, day: Day)
    requires 0 <= week < job.weeks && RunIdFor(job.tier, job.phase, day) == INTERVAL_ID
    ensures PhaseRun(job, week, day).Ok?
    ensures var run := PhaseRun(job, week, day).value;
      && run.distance == 0.0 && run.on == 4 && run.off == 4
      && run.estDuration == (run.on + run.off) * run.sets
      && run.estAvgPace == IntervalPace(job.tier)
      && DEFAULT_RUNS[INTERVAL_ID].sets.Get(job.tier).Get(job.phase).low <= run.sets
      && run.sets <= DEFAULT_RUNS[INTERVAL_ID].sets.Get(job.tier).Get(job.phase).high
  {
    IntervalEntry(job.tier, job.phase);
  }

  /**
   * `1 / (distance / duration)`: the estimated average pace in minutes per km of a
   * run of `distance` km in `duration` minutes; at that pace the distance takes
   * exactly the duration.
   */
  function Pace(distance: real, duration: int): (pace: real)
    requires distance > 0.0 && duration >= 1
    ensures pace > 0.0 && pace * distance == duration as real
  {
    var speed := distance / duration as real;
    assert speed * duration as real == distance;
    assert 1.0 / speed * distance == 1.0 / speed * speed * duration as real;
    1.0 / speed
  }

  /** Slot (w, d) of a phase as a function of two integers: week w, day WEEK[d] inside the phase. */
  function SlotOutcome(job: PhaseJob): (int, int) -> Result<ScheduledRun, Fault> {
    (w: int, d: int) => if 0 <= w < job.weeks && 0 <= d < 7 then PhaseRun(job, w, WEEK[d]) else Err(ZeroDivision)
  }

  /** Row w of a grid of 7 columns: f(w, 0), ..., f(w, 6). */
  function Row<R>(f: (int, int) -> R, w: int): (rs: seq<R>)
    ensures |rs| == 7
  {
    seq(7, j => f(w, j))
  }

  /** The first m rows of a grid of 7 columns, row by row. */
  function Grid<R>(f: (int, int) -> R, m: nat): (rs: seq<R>)
    ensures |rs| == 7 * m
  {
    if m == 0 then [] else Grid(f, m - 1) + Row(f, m - 1)
  }

  /** The outcomes of all the phase's slots in the order the loops visit them: week by week, each in WEEK order. */
  function PhaseOutcomes(job: PhaseJob): (rs: seq<Result<ScheduledRun, Fault>>)
    ensures |rs| == SlotCount(job)
  {
    Grid(SlotOutcome(job), WeeksVisited(job))
  }

  /**
   * The values of a run of outcomes up to the first failure: what a loop that
   * saves each result and stops at the first exception has saved.
   */
  function OksUntilErr<T, E>(rs: seq<Result<T, E>>): (oks: seq<T>)
  {
    if |rs| == 0 then []
    else
      var earlier := OksUntilErr(rs[..|rs| - 1]);
      if |earlier| == |rs| - 1 && rs[|rs| - 1].Ok? then earlier + [rs[|rs| - 1].value]
      else earlier
  }

  /** The saved values are the outcomes' values in order, and a shortfall is explained by a failure. */
  lemma {:induction false} OksUntilErrPrefix<T, E>(rs: seq<Result<T, E>>)
    ensures |OksUntilErr(rs)| <= |rs|
    ensures forall k :: 0 <= k < |OksUntilErr(rs)| ==> rs[k] == Ok(OksUntilErr(rs)[k])
    ensures |OksUntilErr(rs)| < |rs| ==> rs[|OksUntilErr(rs)|].Err?
  {
    if |rs| > 0 {
      var front := rs[..|rs| - 1];
      OksUntilErrPrefix(front);
      assert forall k :: 0 <= k < |front| ==> front[k] == rs[k];
    }
  }

  /** One more outcome: its value is appended exactly when nothing has failed so far and it succeeds. */
  lemma OksUntilErrSnoc<T, E>(rs: seq<Result<T, E>>, r: Result<T, E>)
    ensures OksUntilErr(rs + [r]) ==
      if |OksUntilErr(rs)| == |rs| && r.Ok? then OksUntilErr(rs) + [r.value] else OksUntilErr(rs)
  {
    assert (rs + [r])[..|rs|] == rs;
  }


  // ---------------------------------------------------------------- taper

  /** `current_phase3_end_date`: the Sunday of the week holding `phase3_end`. */
  function TaperWindowEnd(phase3End: Date): Date {
    phase3End + (6 - Weekday(phase3End))
  }

  /**
   * The i-th run `_schedule_runs_for_taper` saves: slot WEEK[i] of LAST, dated i
   * days after the day after `phase3_end`, whatever weekday that is.
   */
  function TaperRun(planId: nat, t: Tier, phase3End: Date, i: int): ScheduledRun
    requires 0 <= i < 7
  {
    TaperWeekWellFormed();
    RaceDayEntry();
    var slot := LAST[WEEK[i]];
    var id := slot.dictId;
    var entry := DEFAULT_RUNS[id];
    var date := phase3End + 1 + i;
    if id == REST_ID then
      ScheduledRun(id, entry.name, planId, entry.feel, date, 0.0, 0, 0.0, 0, 0, 0)
    else if id == INTERVAL_ID then
      ScheduledRun(id, entry.name, planId, entry.feel, date, 0.0, (slot.on + slot.off) * slot.sets,
                   IntervalPace(t), slot.on, slot.off, slot.sets)
    else if id == RACE_DAY_ID then
      var distance := entry.raceDistance as real;
      var duration := entry.firstDuration.Get(t);
      ScheduledRun(id, entry.name, planId, entry.feel, date, distance, duration,
                   Pace(distance, duration), 0, 0, 0)
    else
      var distance := slot.distance as real;
      var duration := slot.duration.Get(t);
      ScheduledRun(id, entry.name, planId, entry.feel, date, distance, duration,
                   Pace(distance, duration), 0, 0, 0)
  }

  /** The first n runs `_schedule_runs_for_taper` saves, in the order it saves them. */
  function TaperRunsUpTo(planId: nat, t: Tier, phase3End: Date, n: nat): (runs: seq<ScheduledRun>)
    requires n <= 7
    ensures |runs| == n
  {
    if n == 0 then [] else TaperRunsUpTo(planId, t, phase3End, n - 1) + [TaperRun(planId, t, phase3End, n - 1)]
  }

  /** The seven taper runs. */
  function TaperRuns(planId: nat, t: Tier, phase3End: Date): seq<ScheduledRun> {
    TaperRunsUpTo(planId, t, phase3End, 7)
  }

  // ---------------------------------------------------------- whole plan

  function JobFor(planId: nat, t: Tier, ph: Phases, p: Phase): PhaseJob {
    match p
    case Phase1 => PhaseJob(planId, t, Phase1, ph.phase1Start, ph.phase1Weeks)
    case Phase2 => PhaseJob(planId, t, Phase2, ph.phase2Start, ph.phase2Weeks)
    case Phase3 => PhaseJob(planId, t, Phase3, ph.phase3Start, ph.phase3Weeks)
  }

  /** The runs a phase's loops save: every slot's run, up to the first slot that raises. */
  function AllPhaseRuns(job: PhaseJob): seq<ScheduledRun> {
    OksUntilErr(PhaseOutcomes(job))
  }

  /** The phase's loops visited every slot: no slot raised. */
  predicate PhaseCompleted(job: PhaseJob) {
    |AllPhaseRuns(job)| == SlotCount(job)
  }

  /** The store after `create_runs_in_plan`, and whether it finished or a phase raised. */
  datatype RunsOutcome = RunsOutcome(store: seq<ScheduledRun>, completed: bool)

  lemma ConcatAssociates<T>(a: seq<T>, b: seq<T>, c: seq<T>)
    ensures a + b + c == a + (b + c)
  {
  }

  /** The runs the three phase calls save, in order. */
  function PhasesRuns(planId: nat, t: Tier, ph: Phases): seq<ScheduledRun> {
    AllPhaseRuns(JobFor(planId, t, ph, Phase1))
      + AllPhaseRuns(JobFor(planId, t, ph, Phase2))
      + AllPhaseRuns(JobFor(planId, t, ph, Phase3))
  }

  /**
   * `create_runs_in_plan` on a store, for the phase split ph: the three phases'
   * runs are appended in turn;
   * a phase that raises leaves what it and the earlier phases saved and ends the
   * call; otherwise the taper step deletes the window after `phase3_end` from the
   * whole store and appends the taper week.
   */
  function CreateRunsOutcome(store: seq<ScheduledRun>, planId: nat, t: Tier, ph: Phases): RunsOutcome {
    var job1, job2, job3 := JobFor(planId, t, ph, Phase1), JobFor(planId, t, ph, Phase2), JobFor(planId, t, ph, Phase3);
    var runs1, runs2, runs3 := AllPhaseRuns(job1), AllPhaseRuns(job2), AllPhaseRuns(job3);
    if !PhaseCompleted(job1) then RunsOutcome(store + runs1, false)
    else if !PhaseCompleted(job2) then RunsOutcome(store + runs1 + runs2, false)
    else if !PhaseCompleted(job3) then RunsOutcome(store + runs1 + runs2 + runs3, false)
    else RunsOutcome(
      RemoveDateRange(store + PhasesRuns(planId, t, ph), ph.phase3End + 1, TaperWindowEnd(ph.phase3End))
        + TaperRuns(planId, t, ph.phase3End),
      true)
  }

  /** When all three phases finish, the outcome is the taper's delete and save after them. */
  lemma CreateRunsOutcomeFinished(store: seq<ScheduledRun>, planId: nat, t: Tier, ph: Phases)
    requires PhaseCompleted(JobFor(planId, t, ph, Phase1)) && PhaseCompleted(JobFor(planId, t, ph, Phase2))
    requires PhaseCompleted(JobFor(planId, t, ph, Phase3))
    ensures CreateRunsOutcome(store, planId, t, ph) == RunsOutcome(
      RemoveDateRange(store + PhasesRuns(planId, t, ph), ph.phase3End + 1, TaperWindowEnd(ph.phase3End))
        + TaperRuns(planId, t, ph.phase3End),
      true)
  {
  }

  /** The runs of this plan after a completed `create_runs_in_plan`: the three phases, less the cut tail, then the taper week. */
  function GeneratedRuns(planId: nat, t: Tier, ph: Phases): seq<ScheduledRun> {
    RemoveDateRange(PhasesRuns(planId, t, ph), ph.phase3End + 1, TaperWindowEnd(ph.phase3End))
      + TaperRuns(planId, t, ph.phase3End)
  }

  /** Outcomes after the first failure change nothing: the values saved are those before it. */
  lemma {:induction false} OksUntilErrStops<T, E>(rs: seq<Result<T, E>>, m: nat)
    requires m < |rs| && |OksUntilErr(rs[..m])| == m && rs[m].Err?
    ensures OksUntilErr(rs) == OksUntilErr(rs[..m])
  {
    var front := rs[..|rs| - 1];
    if |rs| > m + 1 {
      assert front[..m] == rs[..m];
      OksUntilErrStops(front, m);
    } else {
      assert front == rs[..m];
    }
  }

  /** The first i rows of a grid start its first m rows, for i <= m. */
  lemma {:induction false} GridTake<R>(f: (int, int) -> R, i: nat, m: nat)
    requires i <= m
    ensures Grid(f, m)[..7 * i] == Grid(f, i)
  {
    if i < m {
      GridTake(f, i, m - 1);
      assert Grid(f, m)[..7 * (m - 1)] == Grid(f, m - 1);
    } else {
      assert Grid(f, m)[..7 * m] == Grid(f, m);
    }
  }

  /** Entry 7 * w + j of the grid is f(w, j). */
  lemma GridAt<R>(f: (int, int) -> R, m: nat, w: int, j: int)
    requires 0 <= w < m && 0 <= j < 7
    ensures Grid(f, m)[7 * w + j] == f(w, j)
  {
    GridTake(f, w + 1, m);
    assert Grid(f, m)[7 * w + j] == Grid(f, w + 1)[7 * w + j];
  }

  /** rs lists f over a grid of 7 columns row by row: entry 7 * w + d is f(w, d). */
  ghost predicate GridPrefix<R>(f: (int, int) -> R, rs: seq<R>) {
    forall w, d :: 0 <= w && 0 <= d < 7 && 7 * w + d < |rs| ==> rs[7 * w + d] == f(w, d)
  }

  /** The next entry of a row-by-row listing is row i, column j. */
  lemma GridPrefixSnoc<R>(f: (int, int) -> R, rs: seq<R>, i: int, j: int)
    requires GridPrefix(f, rs) && |rs| == 7 * i + j && 0 <= i && 0 <= j < 7
    ensures GridPrefix(f, rs + [f(i, j)])
  {
    var rs' := rs + [f(i, j)];
    forall w, d | 0 <= w && 0 <= d < 7 && 7 * w + d < |rs'|
      ensures rs'[7 * w + d] == f(w, d)
    {
      if 7 * w + d == |rs| {
        assert w == i && d == j;
      }
    }
  }

  /** A row-by-row listing of f is the grid of f up to its length. */
  lemma GridPrefixIsGrid<R>(f: (int, int) -> R, rs: seq<R>, m: nat)
    requires GridPrefix(f, rs) && |rs| <= 7 * m
    ensures rs == Grid(f, m)[..|rs|]
  {
    forall k | 0 <= k < |rs| ensures rs[k] == Grid(f, m)[k] {
      var w, d := k / 7, k % 7;
      assert 7 * w + d == k;
      GridAt(f, m, w, d);
    }
  }

  /** Slot 7 * w + j of the visiting order is week w, day WEEK[j]. */
  lemma PhaseOutcomeAt(job: PhaseJob, w: int, j: int)
    requires 0 <= w < job.weeks && 0 <= j < 7
    ensures PhaseOutcomes(job)[7 * w + j] == PhaseRun(job, w, WEEK[j])
  {
    GridAt(SlotOutcome(job), WeeksVisited(job), w, j);
  }

  /**
   * rs holds the outcomes of the first |rs| slots in visiting order: slot 7 * w + d
   * is week w, day WEEK[d].
   */
  ghost predicate OutcomePrefix(job: PhaseJob, rs: seq<Result<ScheduledRun, Fault>>) {
    |rs| <= SlotCount(job) && GridPrefix(SlotOutcome(job), rs)
  }

  /** The loops' next step extends the outcomes by the run of week i, day WEEK[j]. */
  lemma OutcomePrefixSnoc(job: PhaseJob, rs: seq<Result<ScheduledRun, Fault>>, i: int, j: int)
    requires OutcomePrefix(job, rs) && |rs| == 7 * i + j && 0 <= j < 7 && 0 <= i < job.weeks
    ensures OutcomePrefix(job, rs + [PhaseRun(job, i, WEEK[j])])
  {
    GridPrefixSnoc(SlotOutcome(job), rs, i, j);
    assert SlotOutcome(job)(i, j) == PhaseRun(job, i, WEEK[j]);
  }

  /** When the loops have visited every slot, they saved all the phase's runs. */
  lemma PhaseCompletes(job: PhaseJob, rs: seq<Result<ScheduledRun, Fault>>)
    requires OutcomePrefix(job, rs) && |rs| == SlotCount(job)
    ensures AllPhaseRuns(job) == OksUntilErr(rs)
  {
    GridPrefixIsGrid(SlotOutcome(job), rs, WeeksVisited(job));
    TakeAll(PhaseOutcomes(job));
  }

  lemma TakeAll<T>(s: seq<T>)
    ensures s[..|s|] == s
  {
  }

  /**
   * When every slot before r succeeded and r raises, the phase saves exactly the
   * runs before it.
   */
  lemma PhaseStopsAtFault(job: PhaseJob, rs: seq<Result<ScheduledRun, Fault>>, r: Result<ScheduledRun, Fault>)
    requires OutcomePrefix(job, rs + [r]) && r.Err? && |OksUntilErr(rs)| == |rs|
    ensures AllPhaseRuns(job) == OksUntilErr(rs)
  {
    var all := PhaseOutcomes(job);
    GridPrefixIsGrid(SlotOutcome(job), rs + [r], WeeksVisited(job));
    assert all[..|rs|] == rs by {
      assert all[..|rs|] == all[..|rs| + 1][..|rs|];
    }
    assert all[|rs|] == r by {
      assert all[|rs|] == all[..|rs| + 1][|rs|];
    }
    OksUntilErrStops(all, |rs|);
  }
}
