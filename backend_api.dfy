/** The rules of the Flask backend: the propulsion table and its validation,
    the timing-based difficulty of an anytime chase, and the search for the
    best launch windows behind the optimal-window endpoint. */
module BackendApi {
  import opened Wrappers
  import opened Rounding
  import opened Calendar
  import opened Sequences
  import opened Propulsion

  // ---------------------------------------------------------------------
  // Propulsion table

  /** A row of `PropulsionSystem.SYSTEMS`; `specificImpulse` is `None` for the
      solar sail's infinite specific impulse. */
  datatype SystemSpec = SystemSpec(
    name: string,
    specificImpulse: Option<int>,
    maxDeltaV: real,
    thrustToWeight: real,
    efficiency: real)

  /** `PropulsionSystem.SYSTEMS[key]`; `None` for a key not in the table. */
  function Systems(k: Kind): (s: Option<SystemSpec>)
    ensures s.Some? <==> !k.Unrecognized?
    ensures s.Some? ==> s.value.maxDeltaV >= 12.0 && s.value.maxDeltaV == s.value.maxDeltaV.Floor as real
  {
    match k
    case Chemical => Some(SystemSpec("Chemical Rocket", Some(450), 15.0, 1.5, 0.3))
    case Ion => Some(SystemSpec("Ion Drive", Some(3000), 25.0, 0.001, 0.8))
    case Nuclear => Some(SystemSpec("Nuclear Thermal", Some(900), 30.0, 0.3, 0.6))
    case Solar => Some(SystemSpec("Solar Sail", None, 12.0, 0.0001, 1.0))
    case Unrecognized(_) => None
  }

  /** `data.get('propulsion', 'chemical')`: a request without a key asks for
      chemical propulsion. */
  function RequestedPropulsion(key: Option<string>): (k: Kind)
    ensures key.None? ==> k == Chemical
    ensures key.Some? ==> k == FromKey(key.value)
  {
    FromKey(key.GetOr("chemical"))
  }

  /** The reply for an unknown propulsion key: HTTP 400, 'Invalid propulsion
      type', returned before any computation. */
  datatype ApiError = InvalidPropulsion

  // ---------------------------------------------------------------------
  // Anytime chase

  function Abs(x: int): (a: nat)
    ensures a == x || a == -x
  {
    if x < 0 then -x else x
  }

  /** The difficulty of launching `days` days from now: none inside the
      30 to 90 day range, growing by 0.01 per day of distance from day 60
      outside it. */
  function DifficultyMultiplier(days: int): (m: real)
    ensures m >= 1.0
    ensures m == 1.0 <==> 30 <= days <= 90
    ensures !(30 <= days <= 90) ==> m >= 1.31 && m == 1.0 + Abs(days - 60) as real / 100.0
  {
    if 30 <= days <= 90 then 1.0 else 1.0 + Abs(days - 60) as real / 100.0
  }

  /** Launching `d` days before or after day 60 is equally hard. */
  lemma DifficultySymmetric(d: int)
    ensures DifficultyMultiplier(60 + d) == DifficultyMultiplier(60 - d)
  {
  }

  /** The further from the easy range, the harder. */
  lemma DifficultyMonotone(a: int, b: int)
    ensures 60 <= a <= b ==> DifficultyMultiplier(a) <= DifficultyMultiplier(b)
    ensures b <= a <= 60 ==> DifficultyMultiplier(a) <= DifficultyMultiplier(b)
  {
  }

  /** The ΔV the mission needs: 8 km/s scaled by the difficulty. */
  function RequiredDeltaV(m: real): (dv: real)
    ensures m >= 1.0 ==> dv >= 8.0
  {
    8.0 * m
  }

  /** The flight time in days: 180, lengthened by half the extra difficulty,
      truncated by `int()`. */
  function FlightTime(m: real): (t: int)
    ensures m >= 1.0 ==> t >= 180
    ensures 0.0 <= 180.0 * (1.0 + (m - 1.0) * 0.5) ==> t as real <= 180.0 * (1.0 + (m - 1.0) * 0.5) < t as real + 1.0
  {
    Trunc(180.0 * (1.0 + (m - 1.0) * 0.5))
  }

  /** A harder launch never has a shorter flight. */
  lemma FlightTimeMonotone(m1: real, m2: real)
    requires 1.0 <= m1 <= m2
    ensures FlightTime(m1) <= FlightTime(m2)
  {
    var x1, x2 := 180.0 * (1.0 + (m1 - 1.0) * 0.5), 180.0 * (1.0 + (m2 - 1.0) * 0.5);
    assert x1 <= x2;
  }

  /** `(launch_date - current_date).days`: whole days, rounded down. */
  function DaysFromNow(launch: UtcDate, now: UtcDate): (days: int)
    requires Valid(launch) && Valid(now)
    ensures days * DayMs <= EpochMs(launch) - EpochMs(now) < (days + 1) * DayMs
  {
    (EpochMs(launch) - EpochMs(now)) / DayMs
  }

  /** What a failed chase suggests: launch earlier or later, and which
      propulsion to switch to. */
  datatype Suggestion = Suggestion(launchEarlier: bool, switchTo: Kind)

  /** The reply of `/api/anytime_chase`, fuel left out; `arrival` only on
      success, `suggestion` only on failure. */
  datatype ChaseReply = ChaseReply(
    success: bool,
    interceptSuccess: bool,
    launch: UtcDate,
    arrival: Option<UtcDate>,
    travelTime: int,
    deltaV: real,
    suggestion: Option<Suggestion>)

  /** The feasibility test for a launch `days` days from now. */
  function Feasible(spec: SystemSpec, days: int): (b: bool)
    ensures b ==> 8.0 <= spec.maxDeltaV
    ensures 30 <= days <= 90 ==> (b <==> 8.0 <= spec.maxDeltaV)
  {
    RequiredDeltaV(DifficultyMultiplier(days)) <= spec.maxDeltaV
  }

  /** `calculate_anytime_chase` for a launch and the current time. */
  function AnytimeChase(key: Option<string>, launch: UtcDate, now: UtcDate): (r: Result<ChaseReply, ApiError>)
    requires Valid(launch) && Valid(now)
    ensures r.Err? <==> RequestedPropulsion(key).Unrecognized?
    ensures r.Ok? ==>
              var spec := Systems(RequestedPropulsion(key)).value;
              var days := DaysFromNow(launch, now);
              var m := DifficultyMultiplier(days);
              r.value.launch == launch &&
              r.value.success == r.value.interceptSuccess == Feasible(spec, days) &&
              r.value.travelTime == FlightTime(m) && r.value.travelTime >= 180 &&
              RequiredDeltaV(m) - 0.005 <= r.value.deltaV <= RequiredDeltaV(m) + 0.005
    ensures r.Ok? && r.value.success ==>
              r.value.suggestion.None? && r.value.arrival.Some? && Valid(r.value.arrival.value) &&
              EpochMs(r.value.arrival.value) - EpochMs(launch) == r.value.travelTime * DayMs
    ensures r.Ok? && !r.value.success ==>
              var spec := Systems(RequestedPropulsion(key)).value;
              r.value.arrival.None? && r.value.suggestion.Some? &&
              (r.value.suggestion.value.launchEarlier <==> DaysFromNow(launch, now) > 60) &&
              r.value.suggestion.value.switchTo == (if spec.maxDeltaV < 25.0 then Nuclear else Ion)
  {
    match Systems(RequestedPropulsion(key))
    case None => Err(InvalidPropulsion)
    case Some(spec) =>
      var days := DaysFromNow(launch, now);
      var m := DifficultyMultiplier(days);
      var flightTime := FlightTime(m);
      if Feasible(spec, days) then
        AddDaysSpan(launch, flightTime);
        Ok(ChaseReply(true, true, launch, Some(AddDays(launch, flightTime)), flightTime,
                      PyRound2(RequiredDeltaV(m)), None))
      else
        Ok(ChaseReply(false, false, launch, None, flightTime, PyRound2(RequiredDeltaV(m)),
                      Some(Suggestion(days > 60, if spec.maxDeltaV < 25.0 then Nuclear else Ion))))
  }

  /** The launches each propulsion type can make, in days from now: the
      chemical rocket from 27 days ago to 147 days ahead, the solar sail from
      10 to 110 days ahead. */
  lemma FeasibleDays(days: int)
    ensures Feasible(Systems(Chemical).value, days) <==> -27 <= days <= 147
    ensures Feasible(Systems(Solar).value, days) <==> 10 <= days <= 110
    ensures Feasible(Systems(Ion).value, days) <==> -152 <= days <= 272
    ensures Feasible(Systems(Nuclear).value, days) <==> -215 <= days <= 335
  {
  }

  // ---------------------------------------------------------------------
  // Optimal windows

  /** A window `find_optimal_windows` keeps: its launch `dayOffset` days
      from now, its flight time and its ΔV rounded to two decimals (fuel and
      efficiency score left out). */
  datatype Window = Window(dayOffset: int, flightTime: int, deltaV: real)

  /** `launch_date`: the current time plus the window's day offset. */
  function LaunchDate(now: UtcDate, w: Window): (d: UtcDate)
    requires Valid(now)
    ensures Valid(d) && EpochMs(d) - EpochMs(now) == w.dayOffset * DayMs
  {
    AddDaysSpan(now, w.dayOffset);
    AddDays(now, w.dayOffset)
  }

  /** `arrival_date`: the launch plus the flight time. */
  function ArrivalDate(now: UtcDate, w: Window): (d: UtcDate)
    requires Valid(now)
    ensures Valid(d) && EpochMs(d) - EpochMs(LaunchDate(now, w)) == w.flightTime * DayMs
  {
    AddDaysSpan(LaunchDate(now, w), w.flightTime);
    AddDays(LaunchDate(now, w), w.flightTime)
  }

  /** Launch dates are tried every 10 days, flight times 60, 90, … 390 days. */
  const FlightTimeCount: nat := 12

  /** How many launch dates `range(0, search_days, 10)` tries. */
  function OffsetCount(searchDays: int): (n: nat)
    ensures searchDays <= 0 ==> n == 0
    ensures searchDays > 0 ==> 10 * (n - 1) < searchDays <= 10 * n
  {
    if searchDays <= 0 then 0 else (searchDays + 9) / 10
  }

  /** The candidate of the `i`-th launch date and `j`-th flight time, with
      `candidateDeltaV(dayOffset, flightTime)` the ΔV the Lambert solver
      gives for it. */
  function Slot(i: int, j: int, candidateDeltaV: (int, int) -> real): (w: Window)
    ensures w.dayOffset == 10 * i && w.flightTime == 60 + 30 * j
    ensures candidateDeltaV(w.dayOffset, w.flightTime) - 0.005 <= w.deltaV <= candidateDeltaV(w.dayOffset, w.flightTime) + 0.005
  {
    Window(10 * i, 60 + 30 * j, PyRound2(candidateDeltaV(10 * i, 60 + 30 * j)))
  }

  /** The candidate is within the propulsion's reach (compared before
      rounding). */
  predicate SlotFeasible(maxDeltaV: real, i: int, j: int, candidateDeltaV: (int, int) -> real) {
    candidateDeltaV(10 * i, 60 + 30 * j) <= maxDeltaV
  }

  /** The windows the inner loop keeps for launch date `i` after trying the
      first `n` flight times. */
  function Row(maxDeltaV: real, i: int, n: nat, candidateDeltaV: (int, int) -> real): seq<Window>
    decreases n
  {
    if n == 0 then []
    else
      Row(maxDeltaV, i, n - 1, candidateDeltaV) +
      (if SlotFeasible(maxDeltaV, i, n - 1, candidateDeltaV) then [Slot(i, n - 1, candidateDeltaV)] else [])
  }

  /** The windows the outer loop keeps after trying the first `m` launch dates. */
  function Grid(maxDeltaV: real, m: nat, candidateDeltaV: (int, int) -> real): seq<Window>
    decreases m
  {
    if m == 0 then []
    else Grid(maxDeltaV, m - 1, candidateDeltaV) + Row(maxDeltaV, m - 1, FlightTimeCount, candidateDeltaV)
  }

  /** A row holds exactly its feasible slots. */
  lemma {:induction false} RowContents(maxDeltaV: real, i: int, n: nat, candidateDeltaV: (int, int) -> real, w: Window)
    ensures w in Row(maxDeltaV, i, n, candidateDeltaV) <==>
              exists j :: 0 <= j < n && SlotFeasible(maxDeltaV, i, j, candidateDeltaV) && w == Slot(i, j, candidateDeltaV)
    decreases n
  {
    if n > 0 {
      RowContents(maxDeltaV, i, n - 1, candidateDeltaV, w);
    }
  }

  /** The grid holds exactly the feasible slots of the launch dates tried:
      every window kept was within reach, and none within reach was lost. */
  lemma {:induction false} GridContents(maxDeltaV: real, m: nat, candidateDeltaV: (int, int) -> real, w: Window)
    ensures w in Grid(maxDeltaV, m, candidateDeltaV) <==>
              exists i, j :: 0 <= i < m && 0 <= j < FlightTimeCount &&
                             SlotFeasible(maxDeltaV, i, j, candidateDeltaV) && w == Slot(i, j, candidateDeltaV)
    decreases m
  {
    if m > 0 {
      var g := Grid(maxDeltaV, m - 1, candidateDeltaV);
      var r := Row(maxDeltaV, m - 1, FlightTimeCount, candidateDeltaV);
      assert Grid(maxDeltaV, m, candidateDeltaV) == g + r;
      GridContents(maxDeltaV, m - 1, candidateDeltaV, w);
      RowContents(maxDeltaV, m - 1, FlightTimeCount, candidateDeltaV, w);
      if w in g + r {
        if w in g {
          var i, j :| 0 <= i < m - 1 && 0 <= j < FlightTimeCount &&
                      SlotFeasible(maxDeltaV, i, j, candidateDeltaV) && w == Slot(i, j, candidateDeltaV);
          assert 0 <= i < m;
        } else {
          assert w in r;
          var j :| 0 <= j < FlightTimeCount &&
                   SlotFeasible(maxDeltaV, m - 1, j, candidateDeltaV) && w == Slot(m - 1, j, candidateDeltaV);
          assert 0 <= m - 1 < m;
        }
      }
      if exists i, j :: 0 <= i < m && 0 <= j < FlightTimeCount &&
                        SlotFeasible(maxDeltaV, i, j, candidateDeltaV) && w == Slot(i, j, candidateDeltaV) {
        var i, j :| 0 <= i < m && 0 <= j < FlightTimeCount &&
                    SlotFeasible(maxDeltaV, i, j, candidateDeltaV) && w == Slot(i, j, candidateDeltaV);
        if i < m - 1 {
          assert w in g;
        } else {
          assert w in r;
        }
      }
    }
  }

  /** A window kept shows a rounded ΔV no larger than the propulsion's maximum. */
  lemma KeptWithinReach(maxDeltaV: real, m: nat, candidateDeltaV: (int, int) -> real, w: Window)
    requires maxDeltaV == maxDeltaV.Floor as real
    requires w in Grid(maxDeltaV, m, candidateDeltaV)
    ensures w.deltaV <= maxDeltaV
  {
    GridContents(maxDeltaV, m, candidateDeltaV, w);
    var i, j :| 0 <= i < m && 0 <= j < FlightTimeCount &&
                SlotFeasible(maxDeltaV, i, j, candidateDeltaV) && w == Slot(i, j, candidateDeltaV);
    PyRound2AtMostWhole(candidateDeltaV(10 * i, 60 + 30 * j), maxDeltaV.Floor);
  }

  function DeltaVKey(w: Window): real { w.deltaV }

  /** The inner loop of `find_optimal_windows`: for the `i`-th launch date,
      try every flight time and keep the candidates within reach. */
  method TryFlightTimes(maxDeltaV: real, i: int, candidateDeltaV: (int, int) -> real)
    returns (row: seq<Window>)
    ensures row == Row(maxDeltaV, i, FlightTimeCount, candidateDeltaV)
  {
    var dayOffset := 10 * i;
    row := [];
    for j := 0 to FlightTimeCount
      invariant row == Row(maxDeltaV, i, j, candidateDeltaV)
    {
      var flightTime := 60 + 30 * j;
      var requiredDeltaV := candidateDeltaV(dayOffset, flightTime);
      ghost var before := row;
      if requiredDeltaV <= maxDeltaV {
        row := row + [Slot(i, j, candidateDeltaV)];
      }
      assert row == before + (if SlotFeasible(maxDeltaV, i, j, candidateDeltaV) then [Slot(i, j, candidateDeltaV)] else []);
    }
  }

  /** Every window the search keeps for propulsion `k`. */
  function Candidates(k: Kind, searchDays: int, candidateDeltaV: (int, int) -> real): seq<Window>
    requires !k.Unrecognized?
  {
    Grid(Systems(k).value.maxDeltaV, OffsetCount(searchDays), candidateDeltaV)
  }

  /** The candidates in ascending order of rounded ΔV, the first five. */
  function TopWindows(k: Kind, searchDays: int, candidateDeltaV: (int, int) -> real): seq<Window>
    requires !k.Unrecognized?
  {
    Take(SortBy(Candidates(k, searchDays, candidateDeltaV), DeltaVKey), 5)
  }

  /** `find_optimal_windows`: try every launch date and flight time, keep the
      candidates within reach, sort them by rounded ΔV and return the first
      five. */
  method FindOptimalWindows(k: Kind, searchDays: int, candidateDeltaV: (int, int) -> real)
    returns (top: seq<Window>)
    requires !k.Unrecognized?
    ensures top == TopWindows(k, searchDays, candidateDeltaV)
    ensures |top| <= 5 && SortedBy(top, DeltaVKey)
    ensures forall w :: w in top ==> w.deltaV <= Systems(k).value.maxDeltaV
  {
    var maxDeltaV := Systems(k).value.maxDeltaV;
    var windows: seq<Window> := [];
    var count := OffsetCount(searchDays);
    for i := 0 to count
      invariant windows == Grid(maxDeltaV, i, candidateDeltaV)
    {
      var row := TryFlightTimes(maxDeltaV, i, candidateDeltaV);
      windows := windows + row;
    }
    var sorted := SortBy(windows, DeltaVKey);
    top := Take(sorted, 5);
    TakeKeepsSorted(sorted, 5, DeltaVKey);
    TopWithinReach(k, searchDays, candidateDeltaV);
  }

  /** Every window among the five returned is within the propulsion's reach. */
  lemma TopWithinReach(k: Kind, searchDays: int, candidateDeltaV: (int, int) -> real)
    requires !k.Unrecognized?
    ensures forall w :: w in TopWindows(k, searchDays, candidateDeltaV) ==>
              w.deltaV <= Systems(k).value.maxDeltaV
  {
    var sorted := SortBy(Candidates(k, searchDays, candidateDeltaV), DeltaVKey);
    forall w | w in TopWindows(k, searchDays, candidateDeltaV)
      ensures w.deltaV <= Systems(k).value.maxDeltaV
    {
      assert w in sorted;
      assert w in multiset(sorted);
      TopFiveAreBest(k, searchDays, candidateDeltaV, w);
    }
  }

  /** The five windows returned are the best: each is within reach, and any
      window left out has a rounded ΔV no smaller than theirs. */
  lemma TopFiveAreBest(k: Kind, searchDays: int, candidateDeltaV: (int, int) -> real, w: Window)
    requires !k.Unrecognized?
    requires w in Candidates(k, searchDays, candidateDeltaV)
    ensures w.deltaV <= Systems(k).value.maxDeltaV
    ensures var top := TopWindows(k, searchDays, candidateDeltaV);
            w !in top ==> |top| == 5 && forall y :: y in top ==> y.deltaV <= w.deltaV
  {
    var spec := Systems(k).value;
    var sorted := SortBy(Candidates(k, searchDays, candidateDeltaV), DeltaVKey);
    KeptWithinReach(spec.maxDeltaV, OffsetCount(searchDays), candidateDeltaV, w);
    assert w in multiset(sorted);
    if w !in Take(sorted, 5) {
      TakeSortedIsSmallest(sorted, 5, DeltaVKey, w);
    }
  }

  /** The first window returned has the smallest rounded ΔV of all kept. */
  lemma FirstIsBest(k: Kind, searchDays: int, candidateDeltaV: (int, int) -> real)
    requires !k.Unrecognized? && TopWindows(k, searchDays, candidateDeltaV) != []
    ensures forall w :: w in Candidates(k, searchDays, candidateDeltaV) ==>
              TopWindows(k, searchDays, candidateDeltaV)[0].deltaV <= w.deltaV
  {
    var grid := Candidates(k, searchDays, candidateDeltaV);
    forall w | w in grid
      ensures TopWindows(k, searchDays, candidateDeltaV)[0].deltaV <= w.deltaV
    {
      SortedHeadIsMinimal(grid, DeltaVKey, w);
    }
  }

  /** The reply of `/api/optimal_window`: the best window with its dates and
      up to three alternatives, or no intercept when nothing is within reach. */
  datatype OptimalReply = OptimalReply(
    success: bool,
    interceptSuccess: bool,
    best: Option<Window>,
    launch: Option<UtcDate>,
    arrival: Option<UtcDate>,
    alternatives: seq<Window>)

  /** `windows[1:4]`. */
  function Alternatives(windows: seq<Window>): (r: seq<Window>)
    ensures |r| <= 3
    ensures forall a :: 0 <= a < |r| ==> 1 + a < |windows| && r[a] == windows[1 + a]
    ensures |windows| >= 4 ==> |r| == 3
    ensures 1 <= |windows| <= 4 ==> |r| == |windows| - 1
  {
    if |windows| <= 1 then [] else windows[1..if |windows| < 4 then |windows| else 4]
  }

  /** `calculate_optimal_window` for the current time `now`, searching a
      year ahead. */
  method CalculateOptimalWindow(key: Option<string>, now: UtcDate, candidateDeltaV: (int, int) -> real)
    returns (r: Result<OptimalReply, ApiError>)
    requires Valid(now)
    ensures r.Err? <==> RequestedPropulsion(key).Unrecognized?
    ensures r.Ok? ==>
              var windows := TopWindows(RequestedPropulsion(key), 365, candidateDeltaV);
              (r.value.best.None? <==> windows == []) &&
              r.value.success == r.value.interceptSuccess == r.value.best.Some? &&
              (r.value.best.None? ==> r.value.launch.None? && r.value.arrival.None? && r.value.alternatives == []) &&
              (r.value.best.Some? ==>
                 r.value.best == Some(windows[0]) && r.value.alternatives == Alternatives(windows) &&
                 r.value.launch == Some(LaunchDate(now, windows[0])) &&
                 r.value.arrival == Some(ArrivalDate(now, windows[0])))
    ensures r.Ok? && r.value.best.Some? ==>
              forall w :: w in Candidates(RequestedPropulsion(key), 365, candidateDeltaV) ==>
                r.value.best.value.deltaV <= w.deltaV
  {
    var k := RequestedPropulsion(key);
    if k.Unrecognized? {
      return Err(InvalidPropulsion);
    }
    var windows := FindOptimalWindows(k, 365, candidateDeltaV);
    if windows == [] {
      return Ok(OptimalReply(false, false, None, None, None, []));
    }
    FirstIsBest(k, 365, candidateDeltaV);
    var best := windows[0];
    return Ok(OptimalReply(true, true, Some(best), Some(LaunchDate(now, best)), Some(ArrivalDate(now, best)),
                           Alternatives(windows)));
  }
}
