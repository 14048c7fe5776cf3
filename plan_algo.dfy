/**
 * `NewMarathonPlan`: the object that validates the race date, saves the plan and
 * fills the store with the plan's scheduled runs. Its methods step through dates
 * and slots as `create_runs_in_plan` and its helpers do, and are proved against
 * the functions of module PlanFormulas.
 */
module PlanAlgo {
  import opened Wrappers
  import opened Dates
  import opened Catalog
  import opened RunStore
  import opened PlanFormulas

  /** What `create_plan` returns: `(True, plan)` or `(False, message)`. */
  datatype CreatePlanResult = Created(plan: MarathonPlan) | Rejected(message: string)

  /** The message `_validate_marathon_date` raises with. */
  const OUT_OF_RANGE_MESSAGE := "Date of marathon is not in allowed range (caught in plan_algo.py)"

  class NewMarathonPlan {
    const user: Runner
    const dateOfMarathon: Date
    /** `date.today()` at construction, passed in. */
    const today: Date
    /** The tables the plan and its runs are saved to. */
    const db: Database
    var plan: Option<MarathonPlan>

    constructor (user: Runner, today: Date, db: Database)
      ensures this.user == user && dateOfMarathon == user.dateOfMarathon
      ensures this.today == today && this.db == db && plan == None
    {
      this.user := user;
      dateOfMarathon := user.dateOfMarathon;
      this.today := today;
      this.db := db;
      plan := None;
    }

    /** `_validate_marathon_date`: None when the date passes, else the message it raises with. */
    function ValidateMarathonDate(): (error: Option<string>)
      ensures error.None? <==> MarathonDateAllowed(today, dateOfMarathon)
      ensures error.Some? ==> error.value == OUT_OF_RANGE_MESSAGE
    {
      if today + MIN_DAYS <= dateOfMarathon <= today + MAX_DAYS then None
      else Some(OUT_OF_RANGE_MESSAGE)
    }

    /**
     * `create_plan`: saves a plan from today to the race and keeps it, exactly when
     * the race date is in the allowed window; otherwise saves nothing and returns
     * the message.
     */
    method CreatePlan() returns (r: CreatePlanResult)
      modifies this, db
      ensures r.Created? <==> MarathonDateAllowed(today, dateOfMarathon)
      ensures r.Created? ==>
        && r.plan == MarathonPlan(|old(db.plans)| + 1, user.username, today, dateOfMarathon)
        && plan == Some(r.plan)
        && db.plans == old(db.plans) + [r.plan] && db.runs == old(db.runs)
      ensures r.Rejected? ==>
        && r.message == "The marathon date is invalid: " + OUT_OF_RANGE_MESSAGE
        && plan == old(plan) && db.plans == old(db.plans) && db.runs == old(db.runs)
    {
      var error := ValidateMarathonDate();
      if error.Some? {
        return Rejected("The marathon date is invalid: " + error.value);
      }
      var saved := db.SavePlan(user.username, today, dateOfMarathon);
      plan := Some(saved);
      return Created(saved);
    }

    /**
     * `create_runs_in_plan`: splits the days to the race into phases, schedules the
     * three phases and then the taper. The store ends as CreateRunsOutcome says;
     * `completed` is false when a phase raised (the call then ends with what was
     * saved so far).
     */
    method CreateRunsInPlan() returns (completed: bool)
      requires plan.Some?
      modifies db
      ensures db.plans == old(db.plans)
      ensures RunsOutcome(db.runs, completed) ==
        CreateRunsOutcome(old(db.runs), plan.value.id, user.fitnessLevel, PhaseSplit(today, dateOfMarathon))
    {
      var ph := SplitPhases(today, dateOfMarathon);
      ghost var planId, t := plan.value.id, user.fitnessLevel;
      assert JobFor(planId, t, ph, Phase1) == PhaseJob(planId, t, Phase1, ph.phase1Start, ph.phase1Weeks);
      assert JobFor(planId, t, ph, Phase2) == PhaseJob(planId, t, Phase2, ph.phase2Start, ph.phase2Weeks);
      assert JobFor(planId, t, ph, Phase3) == PhaseJob(planId, t, Phase3, ph.phase3Start, ph.phase3Weeks);

      completed := ScheduleRunsForPhase(Phase1, ph.phase1Start, ph.phase1Weeks);
      if !completed {
        return;
      }
      completed := ScheduleRunsForPhase(Phase2, ph.phase2Start, ph.phase2Weeks);
      if !completed {
        return;
      }
      completed := ScheduleRunsForPhase(Phase3, ph.phase3Start, ph.phase3Weeks);
      if !completed {
        return;
      }
      assert db.runs == old(db.runs) + PhasesRuns(planId, t, ph) by {
        var runs1, runs2 := AllPhaseRuns(JobFor(planId, t, ph, Phase1)), AllPhaseRuns(JobFor(planId, t, ph, Phase2));
        ConcatAssociates(old(db.runs), runs1 + runs2, AllPhaseRuns(JobFor(planId, t, ph, Phase3)));
        ConcatAssociates(old(db.runs), runs1, runs2);
      }
      ScheduleRunsForTaper(ph.phase3End, user.fitnessLevel);
      CreateRunsOutcomeFinished(old(db.runs), planId, t, ph);
    }

    /**
     * The date arithmetic at the head of `create_runs_in_plan`: the 3:2:1 split of
     * the days to the race, each boundary stepped a day at a time to a Monday or a
     * Sunday, and the week counts, already plus the one the calls add.
     */
    static method SplitPhases(today: Date, race: Date) returns (ph: Phases)
      ensures ph == PhaseSplit(today, race)
    {
      var totalDays := race - today;
      // (3/6) * total_days - 1 and (2/6) * total_days - 1 as whole days
      var phase1Offset := totalDays / 2 - 1;
      var phase2Offset := totalDays / 3 - 1;

      // each `while d.weekday() != w: d += timedelta(days=1)` loop
      var phase1Start := StepToWeekday(today, MONDAY);
      var phase1End := StepToWeekday(phase1Start + phase1Offset, SUNDAY);
      var phase2Start := phase1End + 1;
      var phase2End := StepToWeekday(phase2Start + phase2Offset, SUNDAY);
      var phase3Start := phase2End + 1;
      var phase3End := race - 7;

      var phase1Weeks := (phase1End - phase1Start) / 7;
      var phase2Weeks := (phase2End - phase2Start) / 7;
      var phase3Weeks := (phase3End - phase3Start) / 7;
      ph := Phases(phase1Start, phase1End, phase2Start, phase2End, phase3Start, phase3End,
                   phase1Weeks + 1, phase2Weeks + 1, phase3Weeks + 1);
    }

    /**
     * The loops of `create_runs_in_plan` that move a date forward a day at a time
     * until it falls on weekday w: they stop at the first such date.
     */
    static method StepToWeekday(d: Date, w: int) returns (r: Date)
      requires 0 <= w < 7
      ensures r == OnOrAfter(d, w)
    {
      r := d;
      while Weekday(r) != w
        invariant d <= r <= OnOrAfter(d, w)
        decreases OnOrAfter(d, w) - r
      {
        r := r + 1;
      }
      if r < OnOrAfter(d, w) {
        OnOrAfterIsFirst(d, w, r);
      }
    }

    /**
     * `_schedule_runs_for_phase`: for each week and each day of WEEK, saves the
     * slot's run. The store gains the phase's runs in slot order; a slot that
     * raises ends the loops there and the result is false.
     */
    method ScheduleRunsForPhase(phase: Phase, phaseStart: Date, weeksInPhase: int) returns (completed: bool)
      requires plan.Some?
      modifies db
      ensures var job := PhaseJob(plan.value.id, user.fitnessLevel, phase, phaseStart, weeksInPhase);
        && db.runs == old(db.runs) + AllPhaseRuns(job)
        && (completed <==> PhaseCompleted(job))
      ensures db.plans == old(db.plans)
    {
      var job := PhaseJob(plan.value.id, user.fitnessLevel, phase, phaseStart, weeksInPhase);
      ghost var outcomes: seq<Result<ScheduledRun, Fault>> := [];
      var i := 0;
      while i < weeksInPhase
        invariant 0 <= i <= WeeksVisited(job)
        invariant |outcomes| == 7 * i && OutcomePrefix(job, outcomes)
        invariant db.runs == old(db.runs) + OksUntilErr(outcomes)
        invariant |OksUntilErr(outcomes)| == |outcomes|
        invariant db.plans == old(db.plans)
      {
        var j := 0;
        while j < |WEEK|
          invariant 0 <= j <= 7
          invariant |outcomes| == 7 * i + j && OutcomePrefix(job, outcomes)
          invariant db.runs == old(db.runs) + OksUntilErr(outcomes)
          invariant |OksUntilErr(outcomes)| == |outcomes|
          invariant db.plans == old(db.plans)
        {
          var run := PhaseRun(job, i, WEEK[j]);
          OutcomePrefixSnoc(job, outcomes, i, j);
          OksUntilErrSnoc(outcomes, run);
          if run.Err? {
            PhaseStopsAtFault(job, outcomes, run);
            return false;
          }
          db.SaveRun(run.value);
          outcomes := outcomes + [run];
          j := j + 1;
        }
        i := i + 1;
      }
      PhaseCompletes(job, outcomes);
      return true;
    }

    /**
     * `_schedule_runs_for_taper`: deletes every stored run, of any plan, dated from
     * the day after `phase3End` to the Sunday of its week, then saves the seven
     * taper runs, dated from the day after `phase3End` on.
     */
    method ScheduleRunsForTaper(phase3End: Date, fitLevel: Tier)
      requires plan.Some?
      modifies db
      ensures db.runs ==
        RemoveDateRange(old(db.runs), phase3End + 1, TaperWindowEnd(phase3End))
          + TaperRuns(plan.value.id, fitLevel, phase3End)
      ensures db.plans == old(db.plans)
    {
      var amountToDelete := 6 - Weekday(phase3End);
      var currentPhase3EndDate := phase3End + amountToDelete;
      var taperStartDate := phase3End + 1;
      db.DeleteRunsInDateRange(taperStartDate, currentPhase3EndDate);
      ghost var kept := db.runs;
      var i := 0;
      while i < |WEEK|
        invariant 0 <= i <= 7
        invariant db.runs == kept + TaperRunsUpTo(plan.value.id, fitLevel, phase3End, i)
        invariant db.plans == old(db.plans)
      {
        db.SaveRun(TaperRun(plan.value.id, fitLevel, phase3End, i));
        i := i + 1;
      }
    }
  }
}
