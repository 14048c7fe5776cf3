/**
 * What the generator's output amounts to: which phases finish, the runs each
 * phase saves and their dates, the taper week, and the whole plan a finished
 * `create_runs_in_plan` leaves in the store.
 */
module PlanProperties {
  import opened Wrappers
  import opened Dates
  import opened Catalog
  import opened RunStore
  import opened PlanFormulas

  /** runs are dated start, start + 1, ... one run a day, and all belong to plan planId. */
  predicate Daily(runs: seq<ScheduledRun>, start: Date, planId: nat) {
    forall k :: 0 <= k < |runs| ==> runs[k].date == start + k && runs[k].planId == planId
  }

  lemma DailyAppend(a: seq<ScheduledRun>, b: seq<ScheduledRun>, start: Date, planId: nat)
    requires Daily(a, start, planId) && Daily(b, start + |a|, planId)
    ensures Daily(a + b, start, planId)
  {
    forall k | 0 <= k < |a + b| ensures (a + b)[k].date == start + k && (a + b)[k].planId == planId {
      if k >= |a| {
        assert (a + b)[k] == b[k - |a|];
      }
    }
  }

  // ---------------------------------------------------------------- phases

  /** When no outcome fails, every value is kept. */
  lemma {:induction false} OksUntilErrAllOk<T, E>(rs: seq<Result<T, E>>)
    requires forall k :: 0 <= k < |rs| ==> rs[k].Ok?
    ensures |OksUntilErr(rs)| == |rs|
  {
    if |rs| > 0 {
      OksUntilErrAllOk(rs[..|rs| - 1]);
    }
  }

  /**
   * A phase's loops visit every slot exactly when the phase is not one week long.
   * A one-week phase raises at its very first slot, Monday's distance run, and
   * saves nothing.
   */
  lemma PhaseCompletedIff(job: PhaseJob)
    ensures PhaseCompleted(job) <==> job.weeks != 1
    ensures job.weeks == 1 ==> AllPhaseRuns(job) == []
  {
    var rs := PhaseOutcomes(job);
    OksUntilErrPrefix(rs);
    if job.weeks == 1 {
      PhaseOutcomeAt(job, 0, 0);
      assert rs[0].Err?;
    } else {
      forall k | 0 <= k < |rs| ensures rs[k].Ok? {
        PhaseSlotOk(job, k);
      }
      OksUntilErrAllOk(rs);
    }
  }

  /** Outside a one-week phase no slot raises. */
  lemma PhaseSlotOk(job: PhaseJob, k: int)
    requires job.weeks != 1 && 0 <= k < SlotCount(job)
    ensures PhaseOutcomes(job)[k].Ok?
  {
    var w, d := k / 7, k % 7;
    assert k == 7 * w + d;
    assert w < job.weeks;
    PhaseOutcomeAt(job, w, d);
  }

  /** In a phase that finishes, saved run 7 * w + d is the run of week w, day WEEK[d]. */
  lemma AllPhaseRunsAt(job: PhaseJob, w: int, d: int)
    requires job.weeks != 1 && 0 <= w < job.weeks && 0 <= d < 7
    ensures PhaseRun(job, w, WEEK[d]).Ok?
    ensures |AllPhaseRuns(job)| == SlotCount(job)
    ensures AllPhaseRuns(job)[7 * w + d] == PhaseRun(job, w, WEEK[d]).value
  {
    PhaseCompletedIff(job);
    OksUntilErrPrefix(PhaseOutcomes(job));
    PhaseOutcomeAt(job, w, d);
  }

  /**
   * A phase that starts on a Monday and finishes saves one run for each of its
   * days, in date order from its first day, all of this plan: 7 a week.
   */
  lemma PhaseRunsDaily(job: PhaseJob)
    requires job.weeks != 1 && Weekday(job.start) == MONDAY
    ensures |AllPhaseRuns(job)| == 7 * WeeksVisited(job)
    ensures Daily(AllPhaseRuns(job), job.start, job.planId)
  {
    PhaseCompletedIff(job);
    var runs := AllPhaseRuns(job);
    DayNumbersOfWeek();
    forall k | 0 <= k < |runs| ensures runs[k].date == job.start + k && runs[k].planId == job.planId {
      var w, d := k / 7, k % 7;
      assert k == 7 * w + d;
      AllPhaseRunsAt(job, w, d);
      PhaseRunIdentity(job, w, WEEK[d]);
    }
  }

  /**
   * Over the weeks of a phase the distance of a day's run never falls: it is the
   * catalog's low in week 0 and its high in the last week.
   */
  lemma DistanceNeverFalls(job: PhaseJob, w1: int, w2: int, day: Day)
    requires job.weeks != 1 && 0 <= w1 <= w2 < job.weeks
    requires IsDistanceRun(RunIdFor(job.tier, job.phase, day))
    ensures PhaseRun(job, w1, day).Ok? && PhaseRun(job, w2, day).Ok?
    ensures PhaseRun(job, w1, day).value.distance <= PhaseRun(job, w2, day).value.distance
    ensures var range := DistanceRange(RunIdFor(job.tier, job.phase, day), job.tier, job.phase);
      && (w1 == 0 ==> PhaseRun(job, w1, day).value.distance == range.low as real)
      && (w2 == job.weeks - 1 ==> PhaseRun(job, w2, day).value.distance == range.high as real)
  {
    var id := RunIdFor(job.tier, job.phase, day);
    var range := DistanceRange(id, job.tier, job.phase);
    assert PhaseRun(job, w1, day).value.distance == Interpolate(range.low, range.high, job.weeks, w1);
    assert PhaseRun(job, w2, day).value.distance == Interpolate(range.low, range.high, job.weeks, w2);
    InterpolateMonotone(range.low, range.high, job.weeks, w1, w2);
  }

  /**
   * Over the weeks of a phase the number of interval sets never falls: it is the
   * catalog's low in week 0 and never above its high.
   */
  lemma SetsNeverFall(job: PhaseJob, w1: int, w2: int, day: Day)
    requires 0 <= w1 <= w2 < job.weeks
    requires RunIdFor(job.tier, job.phase, day) == INTERVAL_ID
    ensures PhaseRun(job, w1, day).Ok? && PhaseRun(job, w2, day).Ok?
    ensures PhaseRun(job, w1, day).value.sets <= PhaseRun(job, w2, day).value.sets
    ensures w1 == 0 ==> PhaseRun(job, w1, day).value.sets == DEFAULT_RUNS[INTERVAL_ID].sets.Get(job.tier).Get(job.phase).low
  {
    IntervalEntry(job.tier, job.phase);
    var range := DEFAULT_RUNS[INTERVAL_ID].sets.Get(job.tier).Get(job.phase);
    assert PhaseRun(job, w1, day).value.sets == WeeklyValue(range.low, range.high, job.weeks, w1);
    assert PhaseRun(job, w2, day).value.sets == WeeklyValue(range.low, range.high, job.weeks, w2);
    WeeklyValueMonotone(range.low, range.high, job.weeks, w1, w2);
  }

  /** The rounded progression can reach high before the week count: 1 to 3 sets over 7 weeks is at 3 in week 6. */
  lemma WeeklyValueReachesHighEarly()
    ensures WeeklyValue(1, 3, 7, 6) == 3
  {
  }

  /** A phase-3 span of -7 to -1 days gives no weeks at all. */
  lemma NegativeSpanNoWeeks(start: Date, end: Date)
    requires -7 <= end - start <= -1
    ensures WeeksInPhase(start, end) == 0
  {
  }

  // ---------------------------------------------------------------- taper

  /** The week after `phase3_end` runs to a Sunday at most six days on. */
  lemma TaperWindowIsSunday(phase3End: Date)
    ensures phase3End <= TaperWindowEnd(phase3End) <= phase3End + 6
    ensures Weekday(TaperWindowEnd(phase3End)) == SUNDAY
  {
    WeekdayAfter(phase3End, 6 - Weekday(phase3End));
  }

  lemma {:induction false} TaperRunsAt(planId: nat, t: Tier, phase3End: Date, n: nat, i: int)
    requires 0 <= i < n <= 7
    ensures TaperRunsUpTo(planId, t, phase3End, n)[i] == TaperRun(planId, t, phase3End, i)
  {
    if i < n - 1 {
      TaperRunsAt(planId, t, phase3End, n - 1, i);
    }
  }

  /**
   * The taper is seven runs of this plan dated `phase3_end + 1` to `phase3_end + 7`,
   * the run types of LAST taken in WEEK order whatever weekday they fall on.
   */
  lemma TaperWeek(planId: nat, t: Tier, phase3End: Date)
    ensures |TaperRuns(planId, t, phase3End)| == 7
    ensures Daily(TaperRuns(planId, t, phase3End), phase3End + 1, planId)
    ensures forall i :: 0 <= i < 7 ==> TaperRuns(planId, t, phase3End)[i].dictId == LAST[WEEK[i]].dictId
  {
    var runs := TaperRuns(planId, t, phase3End);
    TaperWeekWellFormed();
    forall i | 0 <= i < 7
      ensures runs[i].date == phase3End + 1 + i && runs[i].planId == planId && runs[i].dictId == LAST[WEEK[i]].dictId
    {
      TaperRunsAt(planId, t, phase3End, 7, i);
    }
  }

  /**
   * The taper runs one by one: rest on the 1st, 3rd and 6th day; 4 sets of 4
   * minutes on and 4 off on the 2nd; 12 km base runs on the 4th and 5th in the
   * tier's duration; the marathon, 42 km, on the 7th.
   */
  lemma TaperRunAttributes(planId: nat, t: Tier, phase3End: Date)
    ensures var runs := TaperRuns(planId, t, phase3End);
      && runs[0].dictId == runs[2].dictId == runs[5].dictId == REST_ID
      && runs[0].distance == runs[2].distance == runs[5].distance == 0.0
      && runs[1].dictId == INTERVAL_ID && runs[1].on == 4 && runs[1].off == 4 && runs[1].sets == 4
      && runs[1].estDuration == 32 && runs[1].estAvgPace == IntervalPace(t) && runs[1].distance == 0.0
      && runs[3].dictId == runs[4].dictId == 2 && runs[3].distance == runs[4].distance == 12.0
      && runs[3].estDuration == runs[4].estDuration == ByTier(70, 60, 50).Get(t)
      && runs[6].dictId == RACE_DAY_ID && runs[6].distance == 42.0
      && runs[6].estDuration == ByTier(240, 210, 180).Get(t)
      && runs[6].estAvgPace * 42.0 == runs[6].estDuration as real
  {
    TaperWeekWellFormed();
    RaceDayEntry();
    var runs := TaperRuns(planId, t, phase3End);
    TaperRunsAt(planId, t, phase3End, 7, 0);
    TaperRunsAt(planId, t, phase3End, 7, 1);
    TaperRunsAt(planId, t, phase3End, 7, 2);
    TaperRunsAt(planId, t, phase3End, 7, 3);
    TaperRunsAt(planId, t, phase3End, 7, 4);
    TaperRunsAt(planId, t, phase3End, 7, 5);
    TaperRunsAt(planId, t, phase3End, 7, 6);
  }

  /** The last taper run is the 42 km race, a week after `phase3_end`. */
  lemma TaperEndsWithRace(planId: nat, t: Tier, phase3End: Date)
    ensures |TaperRuns(planId, t, phase3End)| == 7
    ensures var last := TaperRuns(planId, t, phase3End)[6];
      last.dictId == RACE_DAY_ID && last.distance == 42.0 && last.date == phase3End + 7
  {
    TaperWeekWellFormed();
    RaceDayEntry();
    TaperRunsAt(planId, t, phase3End, 7, 6);
  }

  // ---------------------------------------------------------------- whole plan

  /**
   * For a split of the allowed shape, phases 1 and 2 always finish, and the call
   * finishes exactly when phase 3 is not one week long.
   */
  lemma CreateRunsCompletedIff(store: seq<ScheduledRun>, planId: nat, t: Tier, ph: Phases)
    requires SplitShape(ph)
    ensures PhaseCompleted(JobFor(planId, t, ph, Phase1)) && PhaseCompleted(JobFor(planId, t, ph, Phase2))
    ensures CreateRunsOutcome(store, planId, t, ph).completed <==> ph.phase3Weeks != 1
  {
    PhaseCompletedIff(JobFor(planId, t, ph, Phase1));
    PhaseCompletedIff(JobFor(planId, t, ph, Phase2));
    PhaseCompletedIff(JobFor(planId, t, ph, Phase3));
  }

  /**
   * Finished, the store is its old runs outside the taper window followed by the
   * plan's runs.
   */
  lemma CreateRunsFinished(store: seq<ScheduledRun>, planId: nat, t: Tier, ph: Phases)
    requires SplitShape(ph) && ph.phase3Weeks != 1
    ensures CreateRunsOutcome(store, planId, t, ph).completed
    ensures CreateRunsOutcome(store, planId, t, ph).store ==
      RemoveDateRange(store, ph.phase3End + 1, TaperWindowEnd(ph.phase3End)) + GeneratedRuns(planId, t, ph)
  {
    CreateRunsCompletedIff(store, planId, t, ph);
    PhaseCompletedIff(JobFor(planId, t, ph, Phase3));
    CreateRunsOutcomeFinished(store, planId, t, ph);
    var lo, hi := ph.phase3End + 1, TaperWindowEnd(ph.phase3End);
    RemoveDateRangeAppend(store, PhasesRuns(planId, t, ph), lo, hi);
    ConcatAssociates(RemoveDateRange(store, lo, hi), RemoveDateRange(PhasesRuns(planId, t, ph), lo, hi), TaperRuns(planId, t, ph.phase3End));
  }

  /**
   * With a one-week phase 3 the store is the old runs followed by phases 1 and 2:
   * phase 3 raised at its first slot and the taper never ran.
   */
  lemma CreateRunsRaises(store: seq<ScheduledRun>, planId: nat, t: Tier, ph: Phases)
    requires SplitShape(ph) && ph.phase3Weeks == 1
    ensures !CreateRunsOutcome(store, planId, t, ph).completed
    ensures CreateRunsOutcome(store, planId, t, ph).store ==
      store + AllPhaseRuns(JobFor(planId, t, ph, Phase1)) + AllPhaseRuns(JobFor(planId, t, ph, Phase2))
  {
    CreateRunsCompletedIff(store, planId, t, ph);
    PhaseCompletedIff(JobFor(planId, t, ph, Phase3));
    var runs1, runs2 := AllPhaseRuns(JobFor(planId, t, ph, Phase1)), AllPhaseRuns(JobFor(planId, t, ph, Phase2));
    assert store + runs1 + runs2 + [] == store + runs1 + runs2;
  }

  /**
   * The three phases' runs, one a day from the first Monday to the Sunday that
   * closes phase 3 (the end of phase 2 when phase 3 has no weeks).
   */
  lemma PhasesDaily(planId: nat, t: Tier, ph: Phases)
    requires SplitShape(ph) && ph.phase3Weeks != 1
    ensures Daily(PhasesRuns(planId, t, ph), ph.phase1Start, planId)
    ensures ph.phase1Start + |PhasesRuns(planId, t, ph)| == TaperWindowEnd(ph.phase3End) + 1
  {
    var job1, job2, job3 := JobFor(planId, t, ph, Phase1), JobFor(planId, t, ph, Phase2), JobFor(planId, t, ph, Phase3);
    PhaseRunsDaily(job1);
    PhaseRunsDaily(job2);
    PhaseRunsDaily(job3);
    var runs1, runs2, runs3 := AllPhaseRuns(job1), AllPhaseRuns(job2), AllPhaseRuns(job3);
    DailyAppend(runs1, runs2, ph.phase1Start, planId);
    DailyAppend(runs1 + runs2, runs3, ph.phase1Start, planId);
  }

  /** The phases' runs dated up to `phase3_end`: the taper window cuts off exactly the rest. */
  lemma PhasesCut(runs: seq<ScheduledRun>, start: Date, planId: nat, phase3End: Date)
    requires Daily(runs, start, planId) && start <= phase3End + 1 && start + |runs| == TaperWindowEnd(phase3End) + 1
    ensures RemoveDateRange(runs, phase3End + 1, TaperWindowEnd(phase3End)) == runs[..phase3End + 1 - start]
    ensures |runs[..phase3End + 1 - start]| == phase3End + 1 - start
    ensures Daily(runs[..phase3End + 1 - start], start, planId)
  {
    DailyPrefix(runs, start, planId, phase3End + 1 - start);
    var lo, hi := phase3End + 1, TaperWindowEnd(phase3End);
    TaperWindowIsSunday(phase3End);
    var n := lo - start;
    var kept, cut := runs[..n], runs[n..];
    assert runs == kept + cut;
    RemoveDateRangeNone(kept, lo, hi);
    forall k | 0 <= k < |cut| ensures lo <= cut[k].date <= hi {
      assert cut[k] == runs[n + k];
    }
    RemoveDateRangeAll(cut, lo, hi);
    RemoveDateRangeAppend(kept, cut, lo, hi);
    assert kept + [] == kept;
  }

  lemma DailyPrefix(runs: seq<ScheduledRun>, start: Date, planId: nat, n: int)
    requires Daily(runs, start, planId) && 0 <= n <= |runs|
    ensures Daily(runs[..n], start, planId)
  {
    forall k | 0 <= k < n ensures runs[..n][k] == runs[k] {
    }
  }

  /** What the taper window leaves of the three phases: one run a day from the first Monday to `phase3_end`. */
  lemma PhasesKept(planId: nat, t: Tier, ph: Phases)
    requires SplitShape(ph) && ph.phase3Weeks != 1
    ensures var kept := RemoveDateRange(PhasesRuns(planId, t, ph), ph.phase3End + 1, TaperWindowEnd(ph.phase3End));
      && |kept| == ph.phase3End + 1 - ph.phase1Start
      && Daily(kept, ph.phase1Start, planId)
  {
    var runs := PhasesRuns(planId, t, ph);
    PhasesDaily(planId, t, ph);
    PhasesCut(runs, ph.phase1Start, planId, ph.phase3End);
    var kept := runs[..ph.phase3End + 1 - ph.phase1Start];
    assert RemoveDateRange(runs, ph.phase3End + 1, TaperWindowEnd(ph.phase3End)) == kept;
  }

  /**
   * The plan a finished `create_runs_in_plan` leaves: one run for every day from
   * the first Monday of phase 1 to a week after `phase3_end`, in date order, all of
   * this plan, the last being the 42 km race.
   */
  lemma GeneratedRunsDaily(planId: nat, t: Tier, ph: Phases)
    requires SplitShape(ph) && ph.phase3Weeks != 1
    ensures var g := GeneratedRuns(planId, t, ph);
      && |g| == ph.phase3End + 7 - ph.phase1Start + 1
      && Daily(g, ph.phase1Start, planId)
      && g[|g| - 1].dictId == RACE_DAY_ID && g[|g| - 1].distance == 42.0 && g[|g| - 1].date == ph.phase3End + 7
  {
    PhasesKept(planId, t, ph);
    var kept := RemoveDateRange(PhasesRuns(planId, t, ph), ph.phase3End + 1, TaperWindowEnd(ph.phase3End));
    var taper := TaperRuns(planId, t, ph.phase3End);
    TaperWeek(planId, t, ph.phase3End);
    TaperEndsWithRace(planId, t, ph.phase3End);
    DailyAppend(kept, taper, ph.phase1Start, planId);
    var g := GeneratedRuns(planId, t, ph);
    assert g == kept + taper;
    assert g[|g| - 1] == taper[6];
  }

  /**
   * For an allowed race date whose phase 3 is not one week long, the call finishes
   * and leaves the old runs outside the taper window, the week before race day,
   * followed by the plan's runs.
   */
  lemma CreateRunsCoversPlan(store: seq<ScheduledRun>, planId: nat, t: Tier, today: Date, race: Date, ph: Phases)
    requires MarathonDateAllowed(today, race) && ph == PhaseSplit(today, race) && ph.phase3Weeks != 1
    ensures CreateRunsOutcome(store, planId, t, ph).completed
    ensures ph.phase3End == race - 7
    ensures CreateRunsOutcome(store, planId, t, ph).store ==
      RemoveDateRange(store, ph.phase3End + 1, TaperWindowEnd(ph.phase3End)) + GeneratedRuns(planId, t, ph)
  {
    PhaseSplitShape(today, race);
    CreateRunsFinished(store, planId, t, ph);
  }

  /**
   * The plan's runs for an allowed race date whose phase 3 is not one week long:
   * one for every day from the first Monday on or after today to race day, all of
   * this plan, the last being the 42 km race on race day.
   */
  lemma PlanRunsToRaceDay(planId: nat, t: Tier, today: Date, race: Date)
    requires MarathonDateAllowed(today, race) && PhaseSplit(today, race).phase3Weeks != 1
    ensures var ph := PhaseSplit(today, race);
      var g := GeneratedRuns(planId, t, ph);
      && today <= ph.phase1Start <= today + 6 && Weekday(ph.phase1Start) == MONDAY
      && |g| == race - ph.phase1Start + 1
      && Daily(g, ph.phase1Start, planId)
      && g[|g| - 1].dictId == RACE_DAY_ID && g[|g| - 1].distance == 42.0 && g[|g| - 1].date == race
  {
    PhaseSplitShape(today, race);
    GeneratedRunsDaily(planId, t, PhaseSplit(today, race));
  }

  /**
   * The taper's delete is not limited to this plan: a finished call drops every
   * run of another plan dated in the window after `phase3_end`.
   */
  lemma TaperDeleteIsUnscoped(store: seq<ScheduledRun>, planId: nat, t: Tier, ph: Phases, r: ScheduledRun)
    requires SplitShape(ph) && ph.phase3Weeks != 1
    requires r in store && r.planId != planId
    requires ph.phase3End + 1 <= r.date <= TaperWindowEnd(ph.phase3End)
    ensures r !in CreateRunsOutcome(store, planId, t, ph).store
  {
    CreateRunsFinished(store, planId, t, ph);
    RemoveDateRangeMembers(store, ph.phase3End + 1, TaperWindowEnd(ph.phase3End));
    GeneratedRunsDaily(planId, t, ph);
  }

  // ---------------------------------------------------------------- examples

  /** 2024-01-01, a Monday, is day 738886. */
  const NEW_YEAR_2024: Date := 738886

  lemma NewYear2024()
    ensures NEW_YEAR_2024 == ToOrdinal(CivilDate(2024, 1, 1)) && Weekday(NEW_YEAR_2024) == MONDAY
  {
  }

  /**
   * A race 91 days after a Monday leaves phase 3 exactly one week, so the call
   * raises (ZeroDivisionError) at phase 3's first slot and stops before the taper.
   */
  lemma NinetyOneDaysRaises(store: seq<ScheduledRun>, planId: nat, t: Tier, today: Date)
    requires Weekday(today) == MONDAY
    ensures MarathonDateAllowed(today, today + 91)
    ensures PhaseSplit(today, today + 91).phase3Weeks == 1
    ensures !CreateRunsOutcome(store, planId, t, PhaseSplit(today, today + 91)).completed
  {
    MondaySplit(today, 91);
    var ph := PhaseSplit(today, today + 91);
    PhaseSplitShape(today, today + 91);
    CreateRunsCompletedIff(store, planId, t, ph);
  }

  /**
   * A race 90 days after a Monday gives phase 3 no weeks (a span of -1 day); by
   * CreateRunsCompletedIff the call then finishes, with 7 + 5 weeks of phases.
   * Phase 3's end is then phase 2's last day, a Sunday, so the taper's delete
   * window is empty and phase 2 is kept whole.
   */
  lemma NinetyDaysSplit(today: Date)
    requires Weekday(today) == MONDAY
    ensures MarathonDateAllowed(today, today + 90)
    ensures PhaseSplit(today, today + 90)
      == Phases(today, today + 48, today + 49, today + 83, today + 84, today + 83, 7, 5, 0)
    ensures TaperWindowEnd(today + 83) == today + 83
  {
    MondaySplit(today, 90);
    WeekdayAfter(today, 83);
  }

  /** From a Monday, 90 or 91 days split into 7 weeks, 5 weeks and what is left before `race - 7`. */
  lemma MondaySplit(today: Date, n: int)
    requires Weekday(today) == MONDAY && (n == 90 || n == 91)
    ensures var ph := PhaseSplit(today, today + n);
      && ph.phase1Start == today && ph.phase1End == today + 48
      && ph.phase2Start == today + 49 && ph.phase2End == today + 83
      && ph.phase3Start == today + 84 && ph.phase3End == today + n - 7
      && ph.phase1Weeks == 7 && ph.phase2Weeks == 5 && ph.phase3Weeks == n - 90
  {
    var race := today + n;
    assert (race - today) / 2 == 45 && (race - today) / 3 == 30;
    assert OnOrAfter(today, MONDAY) == today;
    WeekdayAfter(today, 44);
    assert OnOrAfter(today + 44, SUNDAY) == today + 48;
    WeekdayAfter(today, 78);
    assert OnOrAfter(today + 49 + 29, SUNDAY) == today + 83;
    SplitBySteps(today, race, today, today + 48, today + 83);
  }

  /** PhaseSplit from the three weekday steps it takes, field by field. */
  lemma SplitBySteps(today: Date, race: Date, p1s: Date, p1e: Date, p2e: Date)
    requires OnOrAfter(today, MONDAY) == p1s
    requires OnOrAfter(p1s + (race - today) / 2 - 1, SUNDAY) == p1e
    requires OnOrAfter(p1e + 1 + (race - today) / 3 - 1, SUNDAY) == p2e
    ensures PhaseSplit(today, race).phase1Start == p1s
    ensures PhaseSplit(today, race).phase1End == p1e
    ensures PhaseSplit(today, race).phase2Start == p1e + 1
    ensures PhaseSplit(today, race).phase2End == p2e
    ensures PhaseSplit(today, race).phase3Start == p2e + 1
    ensures PhaseSplit(today, race).phase3End == race - 7
    ensures PhaseSplit(today, race).phase1Weeks == WeeksInPhase(p1s, p1e)
    ensures PhaseSplit(today, race).phase2Weeks == WeeksInPhase(p1e + 1, p2e)
    ensures PhaseSplit(today, race).phase3Weeks == WeeksInPhase(p2e + 1, race - 7)
  {
  }
}
