/**
 * The static workout catalog the plan generator reads: the week, the allowed
 * race-date window, the weekly templates per fitness tier and phase, the run
 * types with their distance, duration and interval tables, and the fixed taper
 * week. Every table is an immutable constant; the lemmas and the accessor
 * contracts below state that the tables are complete and well formed.
 */
module Catalog {

  datatype Tier = Beginner | Intermediate | Advanced

  datatype Phase = Phase1 | Phase2 | Phase3

  datatype Day = Mon | Tue | Wed | Thu | Fri | Sat | Sun

  /** A value for each fitness tier: the tables keyed "beginner", "intermediate", "advanced". */
  datatype ByTier<T> = ByTier(beginner: T, intermediate: T, advanced: T) {
    function Get(t: Tier): T {
      match t
      case Beginner => beginner
      case Intermediate => intermediate
      case Advanced => advanced
    }
  }

  /** A value for each phase: the tables keyed "phase1", "phase2", "phase3". */
  datatype ByPhase<T> = ByPhase(phase1: T, phase2: T, phase3: T) {
    function Get(p: Phase): T {
      match p
      case Phase1 => phase1
      case Phase2 => phase2
      case Phase3 => phase3
    }
  }

  /** A {"low": ..., "high": ...} pair. */
  datatype Range = Range(low: int, high: int)

  /** A {"int": ..., "desc": ...} heart-rate zone. */
  datatype Zone = Zone(level: nat, desc: string)

  /**
   * An entry of DEFAULT_RUNS. The entries come in four shapes: rest (no tables),
   * distance runs (distance ranges and a first duration), the interval run (on,
   * off, a sets range and a first duration) and race day (a fixed distance).
   */
  datatype Workout =
    | RestDay(name: string, zone: Zone, feel: string)
    | DistanceRun(name: string, zone: Zone, feel: string,
                  distance: ByTier<ByPhase<Range>>, firstDuration: ByTier<nat>)
    | IntervalRun(name: string, zone: Zone, feel: string, on: nat, off: nat,
                  sets: ByTier<ByPhase<Range>>, firstDuration: ByTier<nat>)
    | RaceDay(name: string, zone: Zone, feel: string, raceDistance: nat, firstDuration: ByTier<nat>)

  /** An entry of LAST, the taper week: the run type and the fields that entry carries. */
  datatype TaperSlot =
    | TaperPlain(dictId: nat)
    | TaperInterval(dictId: nat, on: nat, off: nat, sets: nat)
    | TaperDistance(dictId: nat, distance: nat, duration: ByTier<nat>)

  const WEEK: seq<Day> := [Mon, Tue, Wed, Thu, Fri, Sat, Sun]

  const MIN_DAYS := 90
  const MAX_DAYS := 365

  const REST_ID := 0
  const INTERVAL_ID := 5
  const RACE_DAY_ID := 9

  const BASIC_PLANS: ByTier<ByPhase<map<Day, nat>>> := ByTier(
    ByPhase(
      map[Mon := 2, Tue := 0, Wed := 2, Thu := 0, Fri := 1, Sat := 6, Sun := 0],
      map[Mon := 2, Tue := 1, Wed := 2, Thu := 3, Fri := 0, Sat := 6, Sun := 2],
      map[Mon := 2, Tue := 5, Wed := 2, Thu := 4, Fri := 0, Sat := 1, Sun := 6]),
    ByPhase(
      map[Mon := 2, Tue := 0, Wed := 2, Thu := 2, Fri := 1, Sat := 6, Sun := 3],
      map[Mon := 2, Tue := 2, Wed := 2, Thu := 3, Fri := 0, Sat := 6, Sun := 2],
      map[Mon := 2, Tue := 5, Wed := 2, Thu := 4, Fri := 0, Sat := 1, Sun := 6]),
    ByPhase(
      map[Mon := 2, Tue := 0, Wed := 2, Thu := 2, Fri := 2, Sat := 6, Sun := 3],
      map[Mon := 2, Tue := 2, Wed := 2, Thu := 3, Fri := 0, Sat := 6, Sun := 2],
      map[Mon := 2, Tue := 5, Wed := 2, Thu := 4, Fri := 0, Sat := 1, Sun := 6]))

  const BASE_FEEL := "You're working but you can still chat comfortably and maintain the pace without feeling exhausted"

  const DEFAULT_RUNS: map<nat, Workout> := map[
    0 := RestDay("Rest", Zone(0, "Rest"), "No run today! :("),
    1 := DistanceRun("Recovery Run", Zone(1, "Recovery"),
                     "Light and easy; you could easily hold a conversation",
                     ByTier(ByPhase(Range(1, 4), Range(2, 5), Range(5, 5)),
                            ByPhase(Range(2, 5), Range(3, 6), Range(6, 6)),
                            ByPhase(Range(4, 8), Range(5, 8), Range(8, 8))),
                     ByTier(10, 15, 50)),
    2 := DistanceRun("Base Run", Zone(2, "Base"), BASE_FEEL,
                     ByTier(ByPhase(Range(2, 10), Range(8, 15), Range(16, 16)),
                            ByPhase(Range(8, 12), Range(12, 16), Range(16, 16)),
                            ByPhase(Range(10, 15), Range(12, 16), Range(16, 16))),
                     ByTier(10, 35, 50)),
    3 := DistanceRun("Long Tempo Run", Zone(3, "Hard"),
                     "Pushing the pace, you could carry on for longer but it's much harder to; can't sustain a conversation",
                     ByTier(ByPhase(Range(1, 10), Range(8, 12), Range(12, 12)),
                            ByPhase(Range(5, 12), Range(10, 15), Range(15, 15)),
                            ByPhase(Range(5, 12), Range(10, 16), Range(16, 16))),
                     ByTier(10, 25, 20)),
    4 := DistanceRun("Harder Tempo Run", Zone(4, "Hard"),
                     "A tough workout, you should have nothing left by the end of the run!",
                     ByTier(ByPhase(Range(1, 5), Range(3, 8), Range(8, 8)),
                            ByPhase(Range(2, 5), Range(5, 10), Range(10, 10)),
                            ByPhase(Range(5, 10), Range(10, 12), Range(12, 12))),
                     ByTier(50, 50, 50)),
    5 := IntervalRun("Interval Runs", Zone(5, "Max Effort"),
                     "Pace yourself over all the intervals but give it everything you have! Push yourself!",
                     4, 4,
                     ByTier(ByPhase(Range(1, 3), Range(2, 4), Range(2, 6)),
                            ByPhase(Range(1, 4), Range(3, 5), Range(4, 8)),
                            ByPhase(Range(3, 5), Range(4, 6), Range(6, 8))),
                     ByTier(16, 32, 48)),
    6 := DistanceRun("Long Base Run", Zone(2, "Base"), BASE_FEEL,
                     ByTier(ByPhase(Range(5, 15), Range(15, 22), Range(22, 36)),
                            ByPhase(Range(12, 20), Range(18, 24), Range(22, 36)),
                            ByPhase(Range(12, 20), Range(18, 26), Range(22, 36))),
                     ByTier(35, 70, 60)),
    9 := RaceDay("Marathon Day", Zone(2, "Max"), "Full Out! Go for it!", 42, ByTier(240, 210, 180))
  ]

  const LAST: map<Day, TaperSlot> := map[
    Mon := TaperPlain(0),
    Tue := TaperInterval(5, 4, 4, 4),
    Wed := TaperPlain(0),
    Thu := TaperDistance(2, 12, ByTier(70, 60, 50)),
    Fri := TaperDistance(2, 12, ByTier(70, 60, 50)),
    Sat := TaperPlain(0),
    Sun := TaperPlain(9)
  ]

  /** WEEK is the seven days, Monday first, each exactly once. */
  lemma WeekIsTheSevenDays()
    ensures |WEEK| == 7 && WEEK[0] == Mon && WEEK[6] == Sun
    ensures forall i, j :: 0 <= i < j < |WEEK| ==> WEEK[i] != WEEK[j]
    ensures forall d: Day :: d in WEEK
  {
    forall d: Day ensures d in WEEK {
      match d
      case Mon => assert WEEK[0] == d;
      case Tue => assert WEEK[1] == d;
      case Wed => assert WEEK[2] == d;
      case Thu => assert WEEK[3] == d;
      case Fri => assert WEEK[4] == d;
      case Sat => assert WEEK[5] == d;
      case Sun => assert WEEK[6] == d;
    }
  }

  predicate IsDistanceRun(id: nat) {
    id in DEFAULT_RUNS && DEFAULT_RUNS[id].DistanceRun?
  }

  /**
   * BASIC_PLANS[t][p][d]. Every weekly template gives every day of the week a run
   * type that DEFAULT_RUNS holds: rest (0), the interval run (5) or a distance run,
   * never race day; Monday is a distance run in every template.
   */
  function RunIdFor(t: Tier, p: Phase, d: Day): (id: nat)
    ensures id in DEFAULT_RUNS && id != RACE_DAY_ID
    ensures id == REST_ID <==> DEFAULT_RUNS[id].RestDay?
    ensures id == INTERVAL_ID <==> DEFAULT_RUNS[id].IntervalRun?
    ensures id != REST_ID && id != INTERVAL_ID ==> IsDistanceRun(id)
    ensures d == Mon ==> IsDistanceRun(id)
  {
    BasicPlansComplete(t, p);
    var id := BASIC_PLANS.Get(t).Get(p)[d];
    TemplateRunKind(id);
    id
  }

  /** The run types a weekly template uses: 0 is rest, 5 the interval run, the others distance runs. */
  lemma TemplateRunKind(id: nat)
    requires id in {0, 1, 2, 3, 4, 5, 6}
    ensures id in DEFAULT_RUNS && !DEFAULT_RUNS[id].RaceDay?
    ensures DEFAULT_RUNS[id].RestDay? <==> id == REST_ID
    ensures DEFAULT_RUNS[id].IntervalRun? <==> id == INTERVAL_ID
    ensures DEFAULT_RUNS[id].DistanceRun? <==> id != REST_ID && id != INTERVAL_ID
  {
  }

  lemma BasicPlansComplete(t: Tier, p: Phase)
    ensures forall d: Day :: d in BASIC_PLANS.Get(t).Get(p)
    ensures forall d: Day :: BASIC_PLANS.Get(t).Get(p)[d] in {0, 1, 2, 3, 4, 5, 6}
    ensures BASIC_PLANS.Get(t).Get(p)[Mon] == 2
  {
    var week := BASIC_PLANS.Get(t).Get(p);
    match t {
      case Beginner =>
      case Intermediate =>
      case Advanced =>
    }
    forall d: Day ensures d in week {
      match d {
        case Mon => case Tue => case Wed => case Thu => case Fri => case Sat => case Sun =>
      }
    }
  }

  /** DEFAULT_RUNS[id]["distance"][t][p]: at least 1 km, low never above high. */
  function DistanceRange(id: nat, t: Tier, p: Phase): (r: Range)
    requires IsDistanceRun(id)
    ensures 1 <= r.low <= r.high
    ensures p == Phase3 && id <= 4 ==> r.low == r.high
  {
    DistanceRangesWellFormed(id, t, p);
    DEFAULT_RUNS[id].distance.Get(t).Get(p)
  }

  lemma DistanceRangesWellFormed(id: nat, t: Tier, p: Phase)
    requires IsDistanceRun(id)
    ensures 1 <= DEFAULT_RUNS[id].distance.Get(t).Get(p).low <= DEFAULT_RUNS[id].distance.Get(t).Get(p).high
    ensures p == Phase3 && id <= 4 ==> DEFAULT_RUNS[id].distance.Get(t).Get(p).low == DEFAULT_RUNS[id].distance.Get(t).Get(p).high
  {
    assert id in {1, 2, 3, 4, 6};
  }

  /** DEFAULT_RUNS[id]["first_duration"][t], in minutes. */
  function FirstDuration(id: nat, t: Tier): (minutes: nat)
    requires id in DEFAULT_RUNS && !DEFAULT_RUNS[id].RestDay?
    ensures minutes >= 1
  {
    assert id in {1, 2, 3, 4, 5, 6, 9};
    DEFAULT_RUNS[id].firstDuration.Get(t)
  }

  /** The interval run: 4 minutes on, 4 off, and a sets range from at least 1 set, low never above high. */
  lemma IntervalEntry(t: Tier, p: Phase)
    ensures INTERVAL_ID in DEFAULT_RUNS && DEFAULT_RUNS[INTERVAL_ID].IntervalRun?
    ensures DEFAULT_RUNS[INTERVAL_ID].on == 4 && DEFAULT_RUNS[INTERVAL_ID].off == 4
    ensures 1 <= DEFAULT_RUNS[INTERVAL_ID].sets.Get(t).Get(p).low <= DEFAULT_RUNS[INTERVAL_ID].sets.Get(t).Get(p).high
  {
  }

  /** Race day: 42 km, 240 / 210 / 180 minutes by tier. */
  lemma RaceDayEntry()
    ensures RACE_DAY_ID in DEFAULT_RUNS && DEFAULT_RUNS[RACE_DAY_ID].RaceDay?
    ensures DEFAULT_RUNS[RACE_DAY_ID].raceDistance == 42
    ensures DEFAULT_RUNS[RACE_DAY_ID].firstDuration == ByTier(240, 210, 180)
  {
  }

  /**
   * LAST holds all seven days: rest on Monday, Wednesday and Saturday, 4 x (4 on,
   * 4 off) intervals on Tuesday, a 12 km base run on Thursday and Friday, and race
   * day on Sunday; each entry carries the fields its run type is read with.
   */
  lemma TaperWeekWellFormed()
    ensures forall d: Day :: d in LAST && LAST[d].dictId in DEFAULT_RUNS
    ensures forall d: Day :: LAST[d].dictId == INTERVAL_ID ==> LAST[d].TaperInterval?
    ensures forall d: Day :: LAST[d].dictId !in {REST_ID, INTERVAL_ID, RACE_DAY_ID} ==>
      LAST[d].TaperDistance? && LAST[d].distance >= 1
    ensures LAST[Mon] == LAST[Wed] == LAST[Sat] == TaperPlain(REST_ID)
    ensures LAST[Tue] == TaperInterval(INTERVAL_ID, 4, 4, 4)
    ensures LAST[Thu] == LAST[Fri] == TaperDistance(2, 12, ByTier(70, 60, 50))
    ensures LAST[Sun] == TaperPlain(RACE_DAY_ID)
  {
    forall d: Day ensures d in LAST {
      match d {
        case Mon => case Tue => case Wed => case Thu => case Fri => case Sat => case Sun =>
      }
    }
  }
}
