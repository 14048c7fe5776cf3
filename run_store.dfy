/**
 * The records the plan generator writes and an in-memory stand-in for the
 * database tables that hold them. The store is shared by every plan: a query on
 * it sees the runs of all plans, as the ORM's `ScheduledRun.objects` does.
 */
module RunStore {
  import opened Dates
  import opened Catalog

  /** The registered runner the generator reads. */
  datatype Runner = Runner(username: string, fitnessLevel: Tier, dateOfMarathon: Date)

  datatype MarathonPlan = MarathonPlan(id: nat, username: string, startDate: Date, endDate: Date)

  /**
   * A scheduled run. Distance is in km, duration and the on/off times in
   * minutes, and the estimated average pace in minutes per km.
   */
  datatype ScheduledRun = ScheduledRun(
    dictId: nat,
    run: string,
    planId: nat,
    runFeel: string,
    date: Date,
    distance: real,
    estDuration: int,
    estAvgPace: real,
    on: int,
    off: int,
    sets: int)

  /** `ScheduledRun.objects.filter(date__range=(lo, hi)).delete()`: drop every run dated lo..hi inclusive, of any plan. */
  function RemoveDateRange(runs: seq<ScheduledRun>, lo: Date, hi: Date): (kept: seq<ScheduledRun>)
    ensures |kept| <= |runs|
  {
    if runs == [] then []
    else (if lo <= runs[0].date <= hi then [] else [runs[0]]) + RemoveDateRange(runs[1..], lo, hi)
  }

  /** A run is kept exactly when it was there and is dated outside lo..hi. */
  lemma {:induction false} RemoveDateRangeMembers(runs: seq<ScheduledRun>, lo: Date, hi: Date)
    ensures forall r :: r in RemoveDateRange(runs, lo, hi) <==> r in runs && !(lo <= r.date <= hi)
  {
    if runs != [] {
      RemoveDateRangeMembers(runs[1..], lo, hi);
      assert runs == [runs[0]] + runs[1..];
    }
  }

  /** Runs all dated outside lo..hi are all kept, in order. */
  lemma {:induction false} RemoveDateRangeNone(runs: seq<ScheduledRun>, lo: Date, hi: Date)
    requires forall k :: 0 <= k < |runs| ==> !(lo <= runs[k].date <= hi)
    ensures RemoveDateRange(runs, lo, hi) == runs
  {
    if runs != [] {
      RemoveDateRangeNone(runs[1..], lo, hi);
      assert runs == [runs[0]] + runs[1..];
    }
  }

  /** Runs all dated inside lo..hi are all dropped. */
  lemma {:induction false} RemoveDateRangeAll(runs: seq<ScheduledRun>, lo: Date, hi: Date)
    requires forall k :: 0 <= k < |runs| ==> lo <= runs[k].date <= hi
    ensures RemoveDateRange(runs, lo, hi) == []
  {
    if runs != [] {
      RemoveDateRangeAll(runs[1..], lo, hi);
    }
  }

  lemma {:induction false} RemoveDateRangeAppend(a: seq<ScheduledRun>, b: seq<ScheduledRun>, lo: Date, hi: Date)
    ensures RemoveDateRange(a + b, lo, hi) == RemoveDateRange(a, lo, hi) + RemoveDateRange(b, lo, hi)
  {
    if a != [] {
      assert (a + b)[1..] == a[1..] + b;
      RemoveDateRangeAppend(a[1..], b, lo, hi);
    } else {
      assert a + b == b;
    }
  }

  class Database {
    var plans: seq<MarathonPlan>
    var runs: seq<ScheduledRun>

    constructor ()
      ensures plans == [] && runs == []
    {
      plans := [];
      runs := [];
    }

    /** `MarathonPlan(...).save()`: the new row gets the next auto-increment id. */
    method SavePlan(username: string, startDate: Date, endDate: Date) returns (plan: MarathonPlan)
      modifies this
      ensures plan == MarathonPlan(|old(plans)| + 1, username, startDate, endDate)
      ensures plans == old(plans) + [plan] && runs == old(runs)
    {
      plan := MarathonPlan(|plans| + 1, username, startDate, endDate);
      plans := plans + [plan];
    }

    /** `ScheduledRun(...).save()`. */
    method SaveRun(run: ScheduledRun)
      modifies this
      ensures runs == old(runs) + [run] && plans == old(plans)
    {
      runs := runs + [run];
    }

    method DeleteRunsInDateRange(lo: Date, hi: Date)
      modifies this
      ensures runs == RemoveDateRange(old(runs), lo, hi) && plans == old(plans)
    {
      runs := RemoveDateRange(runs, lo, hi);
    }
  }
}
