/** The mission-outcome engine of the chase simulator (`mockBackendAPI` in
    ChaseSimulator.jsx): the deterministic launch into one of the three
    best-intercept windows, and the "anytime chase" from a chosen date, whose
    outcome is decided by calendar bands and two random draws.
    `Math.random()` is replaced by the parameters `u1` and `u2`. */
module ChaseEngine {
  import opened Wrappers
  import opened Rounding
  import opened Calendar
  import opened Propulsion

  /** An entry of `propulsionData`. */
  datatype Coefficients = Coefficients(fuelMult: real, timeMod: real, deltaVMod: real)

  /** `propulsionData[key]`; `None` is JavaScript's `undefined`. */
  function PropulsionData(p: Kind): (c: Option<Coefficients>)
    ensures c.Some? <==> !p.Unrecognized?
    ensures c.Some? ==> c.value.fuelMult > 0.0 && c.value.timeMod > 0.0 && c.value.deltaVMod > 0.0
  {
    match p
    case Chemical => Some(Coefficients(3.2, 1.1, 1.05))
    case Ion => Some(Coefficients(1.5, 0.9, 0.85))
    case Nuclear => Some(Coefficients(2.1, 0.8, 0.8))
    case Solar => Some(Coefficients(0.8, 1.4, 0.9))
    case Unrecognized(_) => None
  }

  /** A preset of `bestInterceptWindows`: its title, launch instant (the
      `value` date at UTC midnight), baseline travel time and baseline ΔV. */
  datatype LaunchWindow = LaunchWindow(title: string, launch: UtcDate, travelTime: int, deltaV: real)

  const BestInterceptWindows: seq<LaunchWindow> := [
    LaunchWindow("Dec 4–6, 2025", UtcDate(2025, 12, 4, 0), 125, 18.5),
    LaunchWindow("Dec 11–13, 2025", UtcDate(2025, 12, 11, 0), 118, 17.2),
    LaunchWindow("Dec 19, 2025", UtcDate(2025, 12, 19, 0), 110, 16.1)
  ]

  /** Which explanation and educational note accompany an outcome. */
  datatype Explanation =
    | OptimalTrajectory     // "Optimal trajectory confirmed! ..."
    | WindowSuccess         // "Mission successful. Launch window from Sep 2025 to Jan 2026 ..."
    | UnfavorableGeometry   // "Mission failed. Launches from Feb to Sep 2026 ..."
    | OutsideWindow         // "Mission failed. Outside the September 2025–January 2026 window ..."

  /** The object both engine functions resolve to. `deltaV` is the number
      written by `toFixed(2)`; `launch` and `arrival` are the instants written
      by `toISOString()`. */
  datatype Outcome = Outcome(
    success: bool,
    interceptSuccess: bool,
    launch: UtcDate,
    arrival: UtcDate,
    travelTime: int,
    deltaV: real,
    fuelRequired: int,
    explanation: Explanation)

  /** An unknown propulsion key has no coefficients. Reading one of
      `undefined` throws a `TypeError`; a key inherited from
      `Object.prototype` yields `NaN` figures, and `toISOString()` of the
      invalid arrival throws a `RangeError`. Either rejects the returned
      promise. */
  datatype EngineError = UnknownPropulsion

  /** The payload's linear effect in the best-intercept launch: none at
      500 kg, +20% at 5000 kg. */
  function MassModifier(payload: int): (m: real)
    ensures payload == 500 ==> m == 1.0
    ensures payload == 5000 ==> m == 1.2
    ensures 500 <= payload <= 5000 ==> 1.0 <= m <= 1.2
  {
    1.0 + ((payload as real - 500.0) / 4500.0) * 0.2
  }

  /** Travel time and ΔV of a window scaled by a propulsion's modifiers and the
      payload's mass modifier, before rounding; the launch and the modal's
      estimate use the same formula. */
  function ScaledTravelTime(data: Coefficients, payload: int, w: LaunchWindow): real {
    w.travelTime as real * data.timeMod * MassModifier(payload)
  }

  function ScaledDeltaV(data: Coefficients, payload: int, w: LaunchWindow): real {
    w.deltaV * data.deltaVMod * MassModifier(payload)
  }

  /** Over the UI's payload range the payload raises the scaled travel time
      and ΔV by at most 20% over the propulsion-scaled baseline. */
  lemma PayloadRaisesAtMostTwentyPercent(data: Coefficients, payload: int, w: LaunchWindow)
    requires 0.0 <= data.timeMod && 0.0 <= data.deltaVMod && 0 <= w.travelTime && 0.0 <= w.deltaV
    requires 500 <= payload <= 5000
    ensures var base := w.travelTime as real * data.timeMod;
            base <= ScaledTravelTime(data, payload, w) <= 1.2 * base
    ensures var base := w.deltaV * data.deltaVMod;
            base <= ScaledDeltaV(data, payload, w) <= 1.2 * base
  {
    var m := MassModifier(payload);
    var bt := w.travelTime as real * data.timeMod;
    var bv := w.deltaV * data.deltaVMod;
    assert bt <= ScaledTravelTime(data, payload, w) <= 1.2 * bt by {
      ProductMonotone(0.0, w.travelTime as real, 0.0, data.timeMod);
      MassScaling(bt, m);
      assert ScaledTravelTime(data, payload, w) == bt * m;
    }
    assert bv <= ScaledDeltaV(data, payload, w) <= 1.2 * bv by {
      ProductMonotone(0.0, w.deltaV, 0.0, data.deltaVMod);
      MassScaling(bv, m);
      assert ScaledDeltaV(data, payload, w) == bv * m;
    }
  }

  /** A non-negative quantity scaled by a factor in [1, 1.2] grows by at
      most 20%. */
  lemma MassScaling(base: real, m: real)
    requires 0.0 <= base && 1.0 <= m <= 1.2
    ensures base <= base * m <= 1.2 * base
  {
    MulMonotone(base, 1.0, m);
    MulMonotone(base, m, 1.2);
  }

  /** Fuel of a best-intercept launch: payload × fuel multiplier × ΔV/10,
      rounded to a whole number. */
  function LaunchFuel(payload: int, fuelMult: real, deltaV: real): (f: int)
    ensures 0 <= payload && 0.0 <= fuelMult && 0.0 <= deltaV ==> 0 <= f
  {
    Round(payload as real * fuelMult * (deltaV / 10.0))
  }

  /** The launch `calculateOptimalIntercept` reports once the propulsion
      coefficients are known: travel time, ΔV and fuel scaled from the
      window's baseline, the arrival that many days after the launch. */
  function Launch(data: Coefficients, payload: int, w: LaunchWindow): (o: Outcome)
    requires Valid(w.launch)
    ensures o.success && o.interceptSuccess
    ensures o.explanation == OptimalTrajectory && o.launch == w.launch
    ensures Valid(o.arrival) && EpochMs(o.arrival) - EpochMs(o.launch) == o.travelTime * DayMs
  {
    var travelTime := Round(ScaledTravelTime(data, payload, w));
    var deltaV := ScaledDeltaV(data, payload, w);
    AddDaysSpan(w.launch, travelTime);
    Outcome(true, true, w.launch, AddDays(w.launch, travelTime), travelTime,
            Fixed2(deltaV), LaunchFuel(payload, data.fuelMult, deltaV), OptimalTrajectory)
  }

  /** `calculateOptimalIntercept`: always an intercept for a known
      propulsion type; an unknown key has no coefficients. */
  function OptimalIntercept(propulsion: Kind, payload: int, w: LaunchWindow): (r: Result<Outcome, EngineError>)
    requires Valid(w.launch)
    ensures r.Err? <==> propulsion.Unrecognized?
    ensures r.Ok? ==> r.value.success && r.value.interceptSuccess
    ensures r.Ok? ==> r.value.explanation == OptimalTrajectory && r.value.launch == w.launch
    ensures r.Ok? ==> Valid(r.value.arrival) &&
                      EpochMs(r.value.arrival) - EpochMs(r.value.launch) == r.value.travelTime * DayMs
  {
    match PropulsionData(propulsion)
    case None => Err(UnknownPropulsion)
    case Some(data) => Ok(Launch(data, payload, w))
  }

  lemma MulMonotone(a: real, x: real, y: real)
    requires 0.0 <= a && x <= y
    ensures a * x <= a * y
  {
  }

  /** For a fixed propulsion and window, a heavier payload never shortens the
      trip, never lowers ΔV and never lowers the fuel. */
  lemma ScaledMonotone(data: Coefficients, p1: int, p2: int, w: LaunchWindow)
    requires data.timeMod > 0.0 && data.deltaVMod > 0.0 && w.travelTime >= 0 && w.deltaV >= 0.0
    requires 0 <= p1 <= p2
    ensures ScaledTravelTime(data, p1, w) <= ScaledTravelTime(data, p2, w)
    ensures 0.0 <= ScaledDeltaV(data, p1, w) <= ScaledDeltaV(data, p2, w)
  {
    var m1, m2 := MassModifier(p1), MassModifier(p2);
    assert 0.0 < m1 <= m2;
    MulMonotone(w.travelTime as real * data.timeMod, m1, m2);
    MulMonotone(w.deltaV * data.deltaVMod, 0.0, m1);
    MulMonotone(w.deltaV * data.deltaVMod, m1, m2);
  }

  /** The rounded fuel figure grows with the payload and with ΔV. */
  lemma FuelMonotone(fuelMult: real, p1: int, p2: int, dv1: real, dv2: real)
    requires 0.0 < fuelMult && 0 <= p1 <= p2 && 0.0 <= dv1 <= dv2
    ensures LaunchFuel(p1, fuelMult, dv1) <= LaunchFuel(p2, fuelMult, dv2)
  {
    ProductMonotone(p1 as real, p2 as real, fuelMult, fuelMult);
    ProductMonotone(p1 as real * fuelMult, p2 as real * fuelMult, dv1 / 10.0, dv2 / 10.0);
    RoundMonotone(p1 as real * fuelMult * (dv1 / 10.0), p2 as real * fuelMult * (dv2 / 10.0));
  }

  lemma ProductMonotone(a1: real, a2: real, b1: real, b2: real)
    requires 0.0 <= a1 <= a2 && 0.0 <= b1 <= b2
    ensures 0.0 <= a1 * b1 <= a2 * b2
  {
    MulMonotone(a1, 0.0, b1);
    MulMonotone(a1, b1, b2);
    MulMonotone(b2, a1, a2);
  }

  /** The reported figures of a launch, in terms of the scaled window figures. */
  lemma LaunchFields(data: Coefficients, p: int, w: LaunchWindow)
    requires Valid(w.launch)
    ensures var dv := ScaledDeltaV(data, p, w);
            Launch(data, p, w).travelTime == Round(ScaledTravelTime(data, p, w)) &&
            Launch(data, p, w).deltaV == Fixed2(dv) &&
            Launch(data, p, w).fuelRequired == LaunchFuel(p, data.fuelMult, dv)
  {
  }

  /** For fixed coefficients and window, a heavier payload never shortens the
      reported trip and never lowers the reported ΔV or fuel. */
  lemma LaunchMonotoneInPayload(data: Coefficients, p1: int, p2: int, w: LaunchWindow)
    requires data.fuelMult > 0.0 && data.timeMod > 0.0 && data.deltaVMod > 0.0
    requires Valid(w.launch) && w.travelTime >= 0 && w.deltaV >= 0.0
    requires 0 <= p1 <= p2
    ensures Launch(data, p1, w).travelTime <= Launch(data, p2, w).travelTime
    ensures Launch(data, p1, w).deltaV <= Launch(data, p2, w).deltaV
    ensures Launch(data, p1, w).fuelRequired <= Launch(data, p2, w).fuelRequired
  {
    var t1, t2 := ScaledTravelTime(data, p1, w), ScaledTravelTime(data, p2, w);
    var d1, d2 := ScaledDeltaV(data, p1, w), ScaledDeltaV(data, p2, w);
    LaunchFields(data, p1, w);
    LaunchFields(data, p2, w);
    ScaledMonotone(data, p1, p2, w);
    RoundMonotone(t1, t2);
    Fixed2Monotone(d1, d2);
    FuelMonotone(data.fuelMult, p1, p2, d1, d2);
  }

  /** The same for `calculateOptimalIntercept` with a known propulsion type. */
  lemma OptimalMonotoneInPayload(propulsion: Kind, p1: int, p2: int, w: LaunchWindow)
    requires Valid(w.launch) && w.travelTime >= 0 && w.deltaV >= 0.0
    requires !propulsion.Unrecognized? && 0 <= p1 <= p2
    ensures OptimalIntercept(propulsion, p1, w).value.travelTime <= OptimalIntercept(propulsion, p2, w).value.travelTime
    ensures OptimalIntercept(propulsion, p1, w).value.deltaV <= OptimalIntercept(propulsion, p2, w).value.deltaV
    ensures OptimalIntercept(propulsion, p1, w).value.fuelRequired <= OptimalIntercept(propulsion, p2, w).value.fuelRequired
  {
    LaunchMonotoneInPayload(PropulsionData(propulsion).value, p1, p2, w);
  }

  /** The travel-time estimate shown in the best-intercept modal; `None` for
      a key the propulsion table lacks altogether, where reading the
      coefficients of `undefined` throws. */
  function EstimatedTravelTime(propulsion: Kind, payload: int, w: LaunchWindow): (t: Option<int>)
    ensures t.Some? <==> !propulsion.Unrecognized?
  {
    match PropulsionData(propulsion)
    case None => None
    case Some(data) =>
      Some(Round(ScaledTravelTime(data, payload, w)))
  }

  /** The ΔV estimate shown in the modal (`toFixed(1)`). */
  function EstimatedDeltaV(propulsion: Kind, payload: int, w: LaunchWindow): (v: Option<real>)
    ensures v.Some? <==> !propulsion.Unrecognized?
  {
    match PropulsionData(propulsion)
    case None => None
    case Some(data) =>
      Some(Fixed1(ScaledDeltaV(data, payload, w)))
  }

  /** What the modal promises is what the launch delivers: the same travel
      time, and a ΔV that differs only by the coarser rounding. */
  lemma ModalEstimateMatchesLaunch(propulsion: Kind, payload: int, w: LaunchWindow)
    requires Valid(w.launch) && !propulsion.Unrecognized?
    ensures EstimatedTravelTime(propulsion, payload, w).value == OptimalIntercept(propulsion, payload, w).value.travelTime
    ensures var est := EstimatedDeltaV(propulsion, payload, w).value;
            var launched := OptimalIntercept(propulsion, payload, w).value.deltaV;
            -0.055 < est - launched < 0.055
  {
    var data := PropulsionData(propulsion).value;
    var x := ScaledDeltaV(data, payload, w);
    assert EstimatedDeltaV(propulsion, payload, w).value == Fixed1(x);
    assert OptimalIntercept(propulsion, payload, w).value.deltaV == Fixed2(x);
  }

  // ---------------------------------------------------------------------
  // Anytime chase

  const SuccessWindowStart: UtcDate := UtcDate(2025, 9, 1, 0)            // 2025-09-01T00:00:00Z
  const SuccessWindowEnd: UtcDate := UtcDate(2026, 1, 31, 86_399_000)    // 2026-01-31T23:59:59Z

  /** `inSuccessWindow`: the instant lies between the two bounds, both
      included, comparing `getTime()` values. */
  predicate InSuccessWindow(d: UtcDate)
    requires Valid(d)
  {
    EpochMs(SuccessWindowStart) <= EpochMs(d) <= EpochMs(SuccessWindowEnd)
  }

  /** `inFailWindow262`: UTC year 2026, UTC month February to September. */
  predicate InFailWindow2026(d: UtcDate) {
    d.year == 2026 && 2 <= d.month <= 9
  }

  /** The success window, read on the calendar: September to December 2025
      and January 2026, up to 23:59:59.000 on January 31. */
  lemma SuccessWindowByCalendar(d: UtcDate)
    requires Valid(d)
    ensures InSuccessWindow(d) <==>
              (d.year == 2025 && d.month >= 9) ||
              (d.year == 2026 && d.month == 1 && (d.day < 31 || d.msOfDay <= 86_399_000))
  {
    EpochMsOrder(d, SuccessWindowStart);
    EpochMsOrder(SuccessWindowEnd, d);
  }

  /** The two band tests never both hold, so their order does not matter and
      every launch date falls in exactly one of the three bands. */
  lemma BandsDisjoint(d: UtcDate)
    requires Valid(d)
    ensures !(InSuccessWindow(d) && InFailWindow2026(d))
  {
    SuccessWindowByCalendar(d);
  }

  /** The fuel multiplier the anytime chase looks up by propulsion key: the
      same values as the best-intercept table, and 2.0 for a key it lacks. */
  function FuelMultiplier(propulsion: Kind): (f: real)
    ensures f > 0.0
    ensures propulsion.Unrecognized? ==> f == 2.0
    ensures !propulsion.Unrecognized? ==> f == PropulsionData(propulsion).value.fuelMult
  {
    match propulsion
    case Chemical => 3.2
    case Ion => 1.5
    case Nuclear => 2.1
    case Solar => 0.8
    case Unrecognized(_) => 2.0
  }

  /** Sampling ranges of the success band: ΔV in km/s, travel time in days. */
  datatype Ranges = Ranges(dvMin: int, dvMax: int, timeMin: int, timeMax: int)

  const IonRanges: Ranges := Ranges(8, 12, 200, 320)

  /** The success band's sampling ranges by propulsion key; a key the table
      lacks gets the ion drive's ranges. */
  function SuccessRanges(propulsion: Kind): (r: Ranges)
    ensures 0 < r.dvMin < r.dvMax && 0 < r.timeMin < r.timeMax
    ensures propulsion.Unrecognized? ==> r == IonRanges
  {
    match propulsion
    case Chemical => Ranges(12, 16, 160, 260)
    case Ion => IonRanges
    case Nuclear => Ranges(10, 14, 150, 240)
    case Solar => Ranges(6, 10, 260, 380)
    case Unrecognized(_) => IonRanges
  }

  /** `clamp`: raise `v` to at least `lo`, then lower it to at most `hi`, so
      that `hi` wins when the interval is empty. */
  function Clamp(v: real, lo: real, hi: real): (r: real)
    ensures lo <= hi ==> lo <= r <= hi
    ensures lo <= v <= hi ==> r == v
    ensures lo <= hi && v <= lo ==> r == lo
    ensures lo <= hi && hi <= v ==> r == hi
    ensures hi < lo ==> r == hi
  {
    if hi <= (if lo >= v then lo else v) then hi else (if lo >= v then lo else v)
  }

  /** `randRange(min, max)` with `Math.random()` returning `u`. */
  function RandRange(lo: real, hi: real, u: real): (r: real)
    requires 0.0 <= u < 1.0 && lo <= hi
    ensures lo <= r <= hi
    ensures lo < hi ==> r < hi
  {
    var span := hi - lo;
    UnitFraction(span, u);
    assert lo + u * span <= lo + span;
    lo + u * span
  }

  /** A fraction `u` in [0, 1) of a non-negative `a` lies in [0, a], and below
      `a` when `a` is positive. */
  lemma UnitFraction(a: real, u: real)
    requires 0.0 <= a && 0.0 <= u < 1.0
    ensures 0.0 <= u * a <= a
    ensures 0.0 < a ==> u * a < a
  {
    assert a - u * a == (1.0 - u) * a;
    MulMonotone(a, 0.0, u);
    if 0.0 < a {
      assert 0.0 < (1.0 - u) * a;
    }
  }

  /** The payload's gentle effect in the anytime chase: neutral at 1500 kg. */
  function MassFactor(payload: int): (f: real)
    ensures payload == 1500 ==> f == 1.0
    ensures 500 <= payload <= 5000 ==> 0.98 < f <= 1.06
  {
    1.0 + ((payload as real - 1500.0) / 3500.0) * 0.06
  }

  /** The band an instant falls in, tested in the order the engine tests them. */
  function BandOf(d: UtcDate): (e: Explanation)
    requires Valid(d)
    ensures e != OptimalTrajectory
    ensures e == WindowSuccess <==> InSuccessWindow(d)
    ensures e == UnfavorableGeometry <==> InFailWindow2026(d)
  {
    BandsDisjoint(d);
    if InSuccessWindow(d) then WindowSuccess
    else if InFailWindow2026(d) then UnfavorableGeometry
    else OutsideWindow
  }

  /** The success band of `calculateAnytimeChase`: ΔV and travel time drawn
      from the propulsion's ranges, nudged by the payload and clamped. */
  function SuccessBand(propulsion: Kind, payload: int, d: UtcDate, u1: real, u2: real): (o: Outcome)
    requires Valid(d) && 0.0 <= u1 < 1.0 && 0.0 <= u2 < 1.0
    ensures o.success && o.interceptSuccess && o.launch == d && o.explanation == WindowSuccess
    ensures Valid(o.arrival) && EpochMs(o.arrival) - EpochMs(o.launch) == o.travelTime * DayMs
    ensures var r := SuccessRanges(propulsion);
            r.dvMin as real <= o.deltaV <= r.dvMax as real + 0.8 &&
            r.timeMin <= o.travelTime <= r.timeMax + 20 &&
            o.fuelRequired >= 800
  {
    var fuelMult := FuelMultiplier(propulsion);
    var massFactor := MassFactor(payload);
    var r := SuccessRanges(propulsion);
    var dv := Clamp(RandRange(r.dvMin as real, r.dvMax as real, u1) * massFactor,
                    r.dvMin as real, r.dvMax as real + 0.8);
    var travelTime := Clamp(RandRange(r.timeMin as real, r.timeMax as real, u2) * (0.98 + (massFactor - 1.0) * 0.8),
                            r.timeMin as real, (r.timeMax + 20) as real);
    var fuel := payload as real * fuelMult * (dv / 9.0) * (travelTime / 280.0);
    var days := Round(travelTime);
    RoundWithin(travelTime, r.timeMin, r.timeMax + 20);
    Fixed2Within(dv, r.dvMin * 100, r.dvMax * 100 + 80);
    AddDaysSpan(d, days);
    Outcome(true, true, d, AddDays(d, days), days, Fixed2(dv), Max(800, Round(fuel)), WindowSuccess)
  }

  /** A failing band of `calculateAnytimeChase`: ΔV drawn from
      [dvLo, dvHi], the trip from [timeLo, timeHi], fuel from the ΔV over
      `dvDiv` and the trip over `timeDiv`, at least 5200 kg. */
  function FailBand(payload: int, fuelMult: real, d: UtcDate, u1: real, u2: real,
                    dvLo: int, dvHi: int, timeLo: int, timeHi: int, dvDiv: real, timeDiv: real,
                    explanation: Explanation): (o: Outcome)
    requires Valid(d) && 0.0 <= u1 < 1.0 && 0.0 <= u2 < 1.0
    requires dvLo <= dvHi && timeLo <= timeHi && dvDiv > 0.0 && timeDiv > 0.0
    ensures o.success && !o.interceptSuccess && o.launch == d && o.explanation == explanation
    ensures Valid(o.arrival) && EpochMs(o.arrival) - EpochMs(o.launch) == o.travelTime * DayMs
    ensures dvLo as real <= o.deltaV <= dvHi as real && timeLo <= o.travelTime <= timeHi
    ensures o.fuelRequired >= 5200
  {
    var dv := RandRange(dvLo as real, dvHi as real, u1);
    var travelTime := RandRange(timeLo as real, timeHi as real, u2);
    var fuel := MaxReal(5200.0, payload as real * fuelMult * (dv / dvDiv) * (travelTime / timeDiv));
    var days := Round(travelTime);
    RoundWithin(travelTime, timeLo, timeHi);
    RoundWithin(fuel, 5200, Round(fuel) + 1);
    Fixed2Within(dv, dvLo * 100, dvHi * 100);
    AddDaysSpan(d, days);
    Outcome(true, false, d, AddDays(d, days), days, Fixed2(dv), Round(fuel), explanation)
  }

  /** `calculateAnytimeChase` with `u1` and `u2` the two values `Math.random()`
      returns, first for ΔV and then for the travel time. */
  function AnytimeChase(propulsion: Kind, payload: int, d: UtcDate, u1: real, u2: real): (o: Outcome)
    requires Valid(d) && 0.0 <= u1 < 1.0 && 0.0 <= u2 < 1.0
    ensures o.success && o.launch == d
    ensures o.interceptSuccess <==> InSuccessWindow(d)
    ensures o.explanation == BandOf(d)
    ensures Valid(o.arrival) && EpochMs(o.arrival) - EpochMs(o.launch) == o.travelTime * DayMs
    ensures InSuccessWindow(d) ==>
              var r := SuccessRanges(propulsion);
              r.dvMin as real <= o.deltaV <= r.dvMax as real + 0.8 &&
              r.timeMin <= o.travelTime <= r.timeMax + 20 &&
              o.fuelRequired >= 800
    ensures !InSuccessWindow(d) ==> o.fuelRequired >= 5200 && o.travelTime > 450
    ensures !InSuccessWindow(d) && InFailWindow2026(d) ==>
              22.0 <= o.deltaV <= 34.0 && 480 <= o.travelTime <= 720
    ensures !InSuccessWindow(d) && !InFailWindow2026(d) ==>
              20.0 <= o.deltaV <= 30.0 && 460 <= o.travelTime <= 680
  {
    if InSuccessWindow(d) then
      SuccessBand(propulsion, payload, d, u1, u2)
    else if InFailWindow2026(d) then
      FailBand(payload, FuelMultiplier(propulsion), d, u1, u2, 22, 34, 480, 720, 8.0, 260.0, UnfavorableGeometry)
    else
      FailBand(payload, FuelMultiplier(propulsion), d, u1, u2, 20, 30, 460, 680, 8.5, 270.0, OutsideWindow)
  }

  /** Outside September 2025 – January 2026 on the calendar, the anytime
      chase never intercepts, takes more than 450 days and needs at least
      5200 kg of fuel. */
  lemma AnytimeFailsOutsideWindow(propulsion: Kind, payload: int, d: UtcDate, u1: real, u2: real)
    requires Valid(d) && 0.0 <= u1 < 1.0 && 0.0 <= u2 < 1.0
    requires d.year < 2025 || (d.year == 2025 && d.month < 9) || (d.year == 2026 && d.month >= 2) || d.year > 2026
    ensures var o := AnytimeChase(propulsion, payload, d, u1, u2);
            !o.interceptSuccess && o.fuelRequired >= 5200 && o.travelTime > 450
  {
    SuccessWindowByCalendar(d);
  }

  /** A chemical launch on 1 October 2025 intercepts with ΔV in [12, 16.8]
      km/s and a trip of 160 to 280 days, whatever the random draws. */
  lemma ChemicalOctoberLaunch(payload: int, u1: real, u2: real)
    requires 0.0 <= u1 < 1.0 && 0.0 <= u2 < 1.0
    ensures var o := AnytimeChase(Chemical, payload, UtcDate(2025, 10, 1, 0), u1, u2);
            o.interceptSuccess && 12.0 <= o.deltaV <= 16.8 && 160 <= o.travelTime <= 280
  {
    SuccessWindowByCalendar(UtcDate(2025, 10, 1, 0));
  }

  /** The first preset window with nuclear propulsion and the lightest
      payload: 100 days, ΔV 14.80 km/s, 1554 kg of fuel. */
  lemma NuclearLightFirstWindow()
    ensures var o := OptimalIntercept(Nuclear, 500, BestInterceptWindows[0]).value;
            o.travelTime == 100 && o.deltaV == 14.8 && o.fuelRequired == 1554
  {
    var w := BestInterceptWindows[0];
    var data := Coefficients(2.1, 0.8, 0.8);
    LaunchFields(data, 500, w);
    assert ScaledTravelTime(data, 500, w) == 100.0;
    assert ScaledDeltaV(data, 500, w) == 14.8;
    RoundOfInteger(100);
    RoundOfInteger(1480);
    assert 14.8 * 100.0 == 1480 as real;
    assert 500 as real * 2.1 * (14.8 / 10.0) == 1554 as real;
    RoundOfInteger(1554);
  }
}
