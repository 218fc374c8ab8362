# Cosmic Explorer: the interceptor mission rules in Dafny

A verified model of the mission logic of Cosmic Explorer. The app lets a
player launch a spacecraft to intercept the interstellar object 3I/ATLAS.
The model covers four pieces:

- **The chase simulator's outcome engine** (`mockBackendAPI` in
  `ChaseSimulator.jsx`), in module `ChaseEngine`:
  - `calculateOptimalIntercept` launches into one of three preset windows,
    scaled by a propulsion table and a linear payload modifier.
  - `calculateAnytimeChase` puts a UTC launch instant into one of three bands:
    the September 2025 to January 2026 success window, the February to
    September 2026 hard-failure band, and everything else. It then draws ΔV
    and travel time from the band's ranges.
  - The estimate the best-intercept modal shows.
- **The mission diary's analytics** (`MissionDiary.jsx`), in module
  `MissionDiary`:
  - the newest-first list;
  - the outcome filter and the case-insensitive search;
  - the success rate, the average ΔV and the best mission;
  - the reversed chart series.
- **The education mode's lesson navigator** (`EducationMode.jsx`), in module
  `EducationMode`. It is a class `Navigator` whose fields are the selected
  topic, the lesson index and the set of completed topics. Its methods are
  the select, next, previous and back-to-topics handlers, and it reports a
  progress percentage.
- **The Flask backend's rules** (`api.py`), in module `BackendApi`:
  - the propulsion table and its key validation;
  - the timing-based difficulty, ΔV, flight time and feasibility of
    `/api/anytime_chase`, with its reply and suggestion;
  - the nested search of `find_optimal_windows`, a method with loops, proved
    against a specification of the windows kept, sorted and cut to five;
  - the best and alternative windows of `/api/optimal_window`.

The supporting modules are:

- `Rounding`: `Math.round`, which settles an exact half upwards; `toFixed`,
  which settles it away from zero; Python's two-decimal `round`, which settles
  it to the even neighbour; and Python's `int()`, which truncates toward zero.
  All of them work on exact reals.
- `Calendar`: UTC instants as a Gregorian date plus milliseconds of day. It
  provides `getTime()` values, day arithmetic and the proof that field order
  equals time order.
- `Sequences`: `filter`, a stable sort, `reverse`, taking a prefix, and the
  subsequence relation.
- `Propulsion`: the propulsion key strings.
- `Wrappers`: `Option` and `Result`.

Randomness, the clock and the Lambert solver's numbers become parameters:

- `Math.random()` becomes `u1` and `u2` in [0, 1).
- `datetime.now()` becomes `now`.
- The ΔV of each candidate transfer becomes `candidateDeltaV(dayOffset, flightTime)`.

Two behaviours of the code are worth knowing.

- **The end of the success window.** `inSuccessWindow` ends at
  2026-01-31T23:59:59.000Z. An instant later in that last second is neither
  in the window nor in the 2026 failure band, so it gets the "outside the
  window" failure. `ChaseEngine.SuccessWindowByCalendar` states this boundary
  exactly.
- **The optimal-intercept monotonicity lemmas.** They assume non-negative
  window figures and payloads, which all three presets and the UI's payload
  range satisfy.

## Model

All source paths are relative to the repository root.

| member | source | states |
|---|---|---|
| Propulsion.FromKey | src/backend/api.py:260 | a key string is unrecognised exactly when it is not one of 'chemical', 'ion', 'nuclear', 'solar'; a recognised type reads back as the same key |
| Propulsion.KeyRoundTrip | src/components/ChaseSimulator.jsx:36-41 | naming a recognised propulsion type and parsing the name gives the type back |
| Rounding.Round | src/components/ChaseSimulator.jsx:51 | `Math.round` lands within half a unit of its argument |
| Rounding.RoundHalfAway | src/components/ChaseSimulator.jsx:61 | `toFixed`'s rounding of the magnitude with the sign put back: within half a unit, and an exact half goes away from zero |
| Rounding.Fixed2 | src/components/ChaseSimulator.jsx:61 | `toFixed(2)` read back as a number is within 0.005 of the value, and an exact half goes away from zero (up for positive values, down for negative ones) |
| Rounding.Fixed1 | src/components/ChaseSimulator.jsx:471 | `toFixed(1)` read back is within 0.05 of the value, and an exact half goes away from zero |
| Rounding.Trunc | src/backend/api.py:332 | Python `int()` truncates toward zero: for non-negative x the result is the largest integer not above x |
| Rounding.Max | src/components/ChaseSimulator.jsx:107 | `Math.max` is one of its arguments and no smaller than either |
| Rounding.RoundHalfEven | src/backend/api.py:233 | the result is within half a unit of its argument, and even when the argument lies exactly half-way |
| Rounding.PyRound2 | src/backend/api.py:233 | Python's `round(x, 2)` is within 0.005 of x, and an exact half goes to the even hundredth |
| Rounding.RoundingAtAHalf | src/backend/api.py:233 | at 10.125 the app's two roundings differ: `toFixed(2)` gives 10.13 and Python's `round` gives 10.12; and `toFixed(2)` writes −0.125 as −0.13 |
| Rounding.PyRound2AtMostWhole | src/backend/api.py:221-233 | rounding to two decimals never lifts a value above a whole number it does not exceed |
| Rounding.MaxReal | src/components/ChaseSimulator.jsx:117 | `Math.max` on reals, the same |
| Rounding.Percentage | src/components/MissionDiary.jsx:125 | `Math.round(part / whole * 100)` lies in [0, 100]; it is 100 when the part is the whole and 0 when the part is empty |
| Rounding.RoundWithin | src/components/ChaseSimulator.jsx:104-105 | rounding a value between two whole numbers stays between them |
| Rounding.Fixed2Within | src/components/ChaseSimulator.jsx:106 | two-decimal rounding stays inside an interval whose ends have two decimals |
| Calendar.AddDays | src/components/ChaseSimulator.jsx:59 | adding n days gives a valid instant at the same time of day, exactly n days later by epoch day |
| Calendar.AddDaysSpan | src/components/ChaseSimulator.jsx:104 | adding n days moves `getTime()` by exactly n × 86 400 000 ms |
| Calendar.EpochMsOrder | src/components/ChaseSimulator.jsx:74 | comparing two instants by `getTime()` is comparing year, month, day and time of day in turn |
| Sequences.Filter | src/components/MissionDiary.jsx:26 | `filter` keeps exactly the elements that pass, each as often as in the input |
| Sequences.FilterIsSubsequence | src/components/MissionDiary.jsx:23-40 | what `filter` keeps is an order-preserving subsequence of its input |
| Sequences.FilterTwice | src/components/MissionDiary.jsx:25-37 | filtering by one test and then another equals filtering once by both |
| Sequences.SortBy | src/components/MissionDiary.jsx:17 | the sort returns a permutation of its input in ascending key order |
| Sequences.SortStable | src/backend/api.py:245 | the sort is stable: for every key, the elements with that key come out in their input order |
| Sequences.InsertKeepsTies | src/backend/api.py:245 | inserting an element places it before every element with the same key and keeps the relative order of the rest |
| Sequences.SortedHeadIsMinimal | src/components/MissionDiary.jsx:127 | the first element after sorting has a key no larger than any element of the input |
| Sequences.Reverse | src/components/MissionDiary.jsx:133 | `reverse` puts element i at position n−1−i |
| Sequences.Take | src/backend/api.py:247 | a slice `[:n]` is a prefix of length min(n, length) |
| Sequences.TakeSortedIsSmallest | src/backend/api.py:245-247 | an element of a sorted list left out of its first n means exactly n were kept, none with a larger key |
| ChaseEngine.PropulsionData | src/components/ChaseSimulator.jsx:36-41 | the four known propulsion types have positive coefficients; any other key has none |
| ChaseEngine.MassModifier | src/components/ChaseSimulator.jsx:49 | the mass modifier is exactly 1 at 500 kg and 1.2 at 5000 kg, and lies between those in between |
| ChaseEngine.ScaledTravelTime | src/components/ChaseSimulator.jsx:51 | the unrounded travel time: the window's days × the propulsion's time coefficient × the mass modifier |
| ChaseEngine.ScaledDeltaV | src/components/ChaseSimulator.jsx:52 | the unrounded ΔV: the window's ΔV × the propulsion's ΔV coefficient × the mass modifier |
| ChaseEngine.PayloadRaisesAtMostTwentyPercent | src/components/ChaseSimulator.jsx:49-52 | over 500–5000 kg the payload raises the scaled travel time and ΔV by at most 20% over the propulsion-scaled baseline, and never lowers them |
| ChaseEngine.ScaledMonotone | src/components/ChaseSimulator.jsx:49-52 | for a fixed propulsion and window, the unrounded travel time and ΔV never decrease as the payload grows |
| ChaseEngine.LaunchFuel | src/components/ChaseSimulator.jsx:53-61 | the fuel is `Math.round(payload × fuel multiplier × ΔV / 10)`, never negative when its factors are not |
| ChaseEngine.FuelMonotone | src/components/ChaseSimulator.jsx:53 | the rounded fuel grows with both the payload and the ΔV |
| ChaseEngine.Launch | src/components/ChaseSimulator.jsx:48-65 | a launch with known coefficients always succeeds and intercepts, departs at the window's instant, and arrives exactly travelTime days later |
| ChaseEngine.OptimalIntercept | src/components/ChaseSimulator.jsx:44-66 | an unknown propulsion key fails: a `TypeError`, or a `RangeError` for a key inherited from `Object.prototype`; a known one always returns success and interceptSuccess, with arrival − launch = travelTime days |
| ChaseEngine.LaunchMonotoneInPayload | src/components/ChaseSimulator.jsx:49-62 | a heavier payload never shortens the reported trip and never lowers the reported ΔV or fuel |
| ChaseEngine.OptimalMonotoneInPayload | src/components/ChaseSimulator.jsx:44-66 | the same, for `calculateOptimalIntercept` with any known propulsion type |
| ChaseEngine.EstimatedTravelTime | src/components/ChaseSimulator.jsx:467-470 | the modal's travel-time estimate exists exactly for a known propulsion type; for a key the table lacks altogether, reading the coefficients of `undefined` throws |
| ChaseEngine.EstimatedDeltaV | src/components/ChaseSimulator.jsx:467-471 | the modal's ΔV estimate exists exactly for a known propulsion type; for a key the table lacks altogether, reading the coefficients of `undefined` throws |
| ChaseEngine.ModalEstimateMatchesLaunch | src/components/ChaseSimulator.jsx:467-471 | the modal's estimated travel time equals the launch's, and its ΔV differs from the launch's by less than 0.055 (only the rounding differs) |
| ChaseEngine.NuclearLightFirstWindow | src/components/ChaseSimulator.jsx:15-62 | nuclear propulsion with 500 kg in the first preset window: 100 days, ΔV 14.80, 1554 kg of fuel |
| ChaseEngine.SuccessWindowByCalendar | src/components/ChaseSimulator.jsx:74 | an instant is in the success window exactly when it falls in September to December 2025, or in January 2026 no later than 23:59:59.000 on the 31st |
| ChaseEngine.InSuccessWindow | src/components/ChaseSimulator.jsx:74 | the launch's `getTime()` lies between 2025-09-01T00:00:00Z and 2026-01-31T23:59:59Z inclusive; `SuccessWindowByCalendar` reads this on the calendar |
| ChaseEngine.InFailWindow2026 | src/components/ChaseSimulator.jsx:75 | the launch's UTC year is 2026 and its UTC month is February to September |
| ChaseEngine.BandsDisjoint | src/components/ChaseSimulator.jsx:74-75 | no instant is in both the success window and the Feb–Sep 2026 band |
| ChaseEngine.FuelMultiplier | src/components/ChaseSimulator.jsx:77 | the anytime chase's fuel multiplier is positive; it agrees with the propulsion table for known keys and is 2.0 for any other key |
| ChaseEngine.SuccessRanges | src/components/ChaseSimulator.jsx:86-92 | every range is non-empty and positive; an unknown key gets the ion ranges |
| ChaseEngine.Clamp | src/components/ChaseSimulator.jsx:79 | `clamp` lands inside [min, max], leaves a value already inside unchanged, saturates at min below and at max above, and returns max when the interval is empty |
| ChaseEngine.RandRange | src/components/ChaseSimulator.jsx:80 | `randRange` lies in [min, max], and below max when the range is non-empty |
| ChaseEngine.MassFactor | src/components/ChaseSimulator.jsx:83 | the anytime mass factor is 1 at 1500 kg and within (0.98, 1.06] over the UI's payload range |
| ChaseEngine.BandOf | src/components/ChaseSimulator.jsx:85-133 | the band tests, in the app's order, select the success explanation exactly in the success window and the unfavourable-geometry one exactly in Feb–Sep 2026 |
| ChaseEngine.SuccessBand | src/components/ChaseSimulator.jsx:85-111 | the success branch intercepts, with ΔV in [min, max + 0.8], travel time in [min, max + 20], fuel at least 800 and arrival − launch = travelTime days |
| ChaseEngine.FailBand | src/components/ChaseSimulator.jsx:113-149 | a failing branch does not intercept, keeps ΔV and travel time inside the drawn ranges, needs at least 5200 kg of fuel, and arrives travelTime days after launch |
| ChaseEngine.AnytimeChase | src/components/ChaseSimulator.jsx:67-150 | always success; interceptSuccess exactly in the success window; arrival − launch = travelTime days; band bounds and fuel floors; outside the window more than 450 days and at least 5200 kg |
| ChaseEngine.AnytimeFailsOutsideWindow | src/components/ChaseSimulator.jsx:132-149 | launching outside September 2025 – January 2026 on the calendar never intercepts, takes more than 450 days and needs at least 5200 kg of fuel |
| ChaseEngine.ChemicalOctoberLaunch | src/components/ChaseSimulator.jsx:86-96 | a chemical launch on 2025-10-01 intercepts with ΔV in [12, 16.8] and a trip of 160 to 280 days, whatever the random draws |
| MissionDiary.NewestFirst | src/components/MissionDiary.jsx:16-18 | `missions` is a permutation of the stored records with timestamps non-increasing, and empty while nothing is loaded |
| MissionDiary.ByOutcome | src/components/MissionDiary.jsx:25-29 | 'success' keeps exactly the intercepts, 'failure' exactly the misses, and any other filter keeps everything |
| MissionDiary.Lower | src/components/MissionDiary.jsx:32 | lowercasing keeps the length and maps each character on its own |
| MissionDiary.Includes | src/components/MissionDiary.jsx:34 | `includes` holds exactly when the needle occurs at some position of the haystack |
| MissionDiary.IncludesEmpty | src/components/MissionDiary.jsx:31 | the empty term occurs in every string |
| MissionDiary.Search | src/components/MissionDiary.jsx:31-38 | an empty term keeps everything; otherwise a mission is kept exactly when the lowercased term occurs in its lowercased name, propulsion type or mode |
| MissionDiary.FilteredMissions | src/components/MissionDiary.jsx:20-41 | the filtered list holds only missions of `missions` |
| MissionDiary.FilteredIsOneFilter | src/components/MissionDiary.jsx:20-41 | the outcome filter followed by the search is a single filter by their conjunction, so the result is an order-preserving subsequence of `missions` |
| MissionDiary.SuccessCount | src/components/MissionDiary.jsx:125 | the successes are no more than the missions |
| MissionDiary.SuccessRate | src/components/MissionDiary.jsx:125 | 0 for no missions, otherwise the rounded percentage of intercepts, always in [0, 100] |
| MissionDiary.SuccessRateExtremes | src/components/MissionDiary.jsx:125 | the rate is 100 when every mission intercepted and 0 when none did |
| MissionDiary.SumBetween | src/components/MissionDiary.jsx:126 | the `reduce` sum of n ΔV values in [lo, hi] lies in [n·lo, n·hi] |
| MissionDiary.AverageDeltaV | src/components/MissionDiary.jsx:126 | 0 for no missions, otherwise within 0.05 of the mean ΔV, and above mean − 0.05 when the mean is not negative |
| MissionDiary.AverageBetween | src/components/MissionDiary.jsx:126 | when every ΔV lies in [lo, hi], the displayed average lies in [lo − 0.05, hi + 0.05], and above lo − 0.05 when lo is not negative, the slack being the one-decimal rounding |
| MissionDiary.BestMission | src/components/MissionDiary.jsx:127 | undefined exactly when no mission intercepted; otherwise a successful mission whose ΔV is no greater than any successful mission's |
| MissionDiary.Point | src/components/MissionDiary.jsx:129-132 | a chart point carries the mission's name and travel time; its fuel efficiency is 0 without positive fuel, otherwise within 0.005 of payload / fuel, and above it minus 0.005 when that ratio is not negative |
| MissionDiary.ChartData | src/components/MissionDiary.jsx:129-133 | one point per filtered mission, in reverse order |
| EducationMode.CatalogueWellFormed | src/data/educationalContent.js:3-120 | every topic of the catalogue has lessons and the topic ids are distinct |
| EducationMode.CatalogueIdCount | src/data/educationalContent.js:3-120 | the catalogue has four distinct topic ids |
| EducationMode.TopicIds | src/components/EducationMode.jsx:95 | every topic's id is among the ids, which are no more than the topics |
| EducationMode.CompletedBound | src/components/EducationMode.jsx:295 | completed ids drawn from the catalogue are no more than its ids |
| EducationMode.Navigator.constructor | src/components/EducationMode.jsx:80-83 | the navigator starts on the topic grid, at lesson 0, with nothing completed |
| EducationMode.Navigator.IsFirst | src/components/EducationMode.jsx:114 | the open lesson is the topic's first: its index is 0 |
| EducationMode.Navigator.IsLast | src/components/EducationMode.jsx:115 | the open lesson is the topic's last: its index is one less than the topic's lesson count |
| EducationMode.Navigator.SingleLesson | src/components/EducationMode.jsx:114-115 | on a one-lesson topic the lesson is both the first and the last |
| EducationMode.Navigator.SelectTopic | src/components/EducationMode.jsx:85-88 | selecting a topic opens it at lesson 0 and keeps the completed set |
| EducationMode.Navigator.NextLesson | src/components/EducationMode.jsx:90-99 | before the last lesson the index advances by one; on the last the topic id joins the completed set and the grid returns at index 0; with nothing selected nothing changes; the completed set never shrinks and the index stays in range |
| EducationMode.Navigator.PrevLesson | src/components/EducationMode.jsx:101-105 | the index goes back by one when it is positive and stays at 0 otherwise; the selection and completed set are kept |
| EducationMode.Navigator.BackToTopics | src/components/EducationMode.jsx:107-110 | returns to the grid at index 0 and keeps the completed set |
| EducationMode.Navigator.Progress | src/components/EducationMode.jsx:307 | the progress percentage lies in [0, 100] and is 0 with nothing completed; it is undefined only for an empty catalogue |
| EducationMode.Navigator.FullProgress | src/components/EducationMode.jsx:295-307 | with distinct ids and every topic completed, the progress is 100 |
| EducationMode.DistinctIdsCount | src/components/EducationMode.jsx:295 | topics with distinct ids have as many ids as topics |
| EducationMode.IdAbsent | src/components/EducationMode.jsx:95 | an id no topic carries is not among the ids |
| BackendApi.Systems | src/backend/api.py:29-58 | exactly the four known keys have a row; every row's maximum ΔV is a whole number of at least 12 km/s |
| BackendApi.RequestedPropulsion | src/backend/api.py:254 | a request without a propulsion key asks for chemical |
| BackendApi.DifficultyMultiplier | src/backend/api.py:318-324 | at least 1; exactly 1 when days_from_now is in 30..90; otherwise 1 + \|d − 60\|/100, which is at least 1.31 |
| BackendApi.DifficultySymmetric | src/backend/api.py:320-324 | launching d days before or after day 60 is equally hard |
| BackendApi.DifficultyMonotone | src/backend/api.py:320-324 | moving further from day 60 never makes a launch easier |
| BackendApi.RequiredDeltaV | src/backend/api.py:327-328 | the required ΔV is at least 8 km/s |
| BackendApi.FlightTime | src/backend/api.py:331-332 | the flight time is at least 180 days and is the truncated 180 × (1 + (m − 1)/2) |
| BackendApi.FlightTimeMonotone | src/backend/api.py:331-332 | a larger difficulty never shortens the flight |
| BackendApi.DaysFromNow | src/backend/api.py:316 | `.days` of the difference is the whole number of days, rounded down |
| BackendApi.Feasible | src/backend/api.py:335 | a feasible launch needs a propulsion reaching at least 8 km/s; inside the 30–90 day range that is also enough |
| BackendApi.AnytimeChase | src/backend/api.py:295-378 | an unknown key is rejected before any computation; success and interceptSuccess hold exactly when the required ΔV is within the propulsion's maximum; the arrival is travelTime days later on success; a failure suggests "earlier" exactly when days_from_now > 60 and nuclear exactly when the maximum ΔV is below 25 |
| BackendApi.FeasibleDays | src/backend/api.py:316-335 | feasible launches in days from now: chemical −27..147, solar 10..110, ion −152..272, nuclear −215..335 |
| BackendApi.LaunchDate | src/backend/api.py:198 | the launch is dayOffset whole days after now |
| BackendApi.ArrivalDate | src/backend/api.py:203 | the arrival is the flight time in whole days after the launch |
| BackendApi.OffsetCount | src/backend/api.py:197 | `range(0, search_days, 10)` tries the least number of offsets whose 10-day steps reach search_days |
| BackendApi.Slot | src/backend/api.py:229-236 | a candidate window has the loop's day offset and flight time, and its ΔV rounded by Python's `round(x, 2)`, within 0.005 of the candidate's ΔV |
| BackendApi.SlotFeasible | src/backend/api.py:221 | a candidate is kept when its unrounded ΔV is at most the propulsion's maximum |
| BackendApi.RowContents | src/backend/api.py:201-238 | the inner loop keeps exactly the flight times whose ΔV is within reach |
| BackendApi.GridContents | src/backend/api.py:197-238 | the nested loops keep exactly the within-reach candidates of every launch date tried |
| BackendApi.KeptWithinReach | src/backend/api.py:221 | every window kept has a rounded ΔV at most the propulsion's maximum |
| BackendApi.TryFlightTimes | src/backend/api.py:201-238 | the inner loop appends the within-reach flight times of one launch date, in order |
| BackendApi.FindOptimalWindows | src/backend/api.py:187-247 | the result is the first five of the within-reach candidates sorted stably by rounded ΔV; at most five, in ascending ΔV, each within the propulsion's reach |
| BackendApi.TopWithinReach | src/backend/api.py:221-247 | every window among the five returned has a rounded ΔV at most the propulsion's maximum |
| BackendApi.TopFiveAreBest | src/backend/api.py:221-247 | every kept window is within reach, and any window left out of the five has a ΔV no smaller than each returned one |
| BackendApi.FirstIsBest | src/backend/api.py:275 | the first window returned has the smallest ΔV of all windows kept |
| BackendApi.Alternatives | src/backend/api.py:288 | `windows[1:4]`: up to three windows, those after the first |
| BackendApi.CalculateOptimalWindow | src/backend/api.py:249-293 | an unknown key is rejected; with no windows the reply reports no intercept; otherwise it reports the first window with its launch and arrival dates, which has the minimum ΔV of all windows kept, and `windows[1:4]` as alternatives |

## Left out

- The 3D scene, the UI chrome, the storage layer, the LLM assistant, the PDF
  export and `startMission`'s naming, insertion and timers are not part of
  this model. Neither is the 800 ms latency of the mock API.
- Floating point: every figure is an exact real, so the IEEE-754 rounding of
  each product and quotient is not modelled. The final roundings are modelled
  as the languages define them on the exact value. `Math.round` settles an
  exact half upwards (`Rounding.Round`). `toFixed(k)` rounds the magnitude
  and puts the sign back, so it settles an exact half away from zero
  (`Rounding.RoundHalfAway`, `Rounding.Fixed2`, `Rounding.Fixed1`). On the
  app's non-negative figures, that is upwards. Python's `round(x, 2)` and `:.2f`
  settle it to the even neighbour (`Rounding.PyRound2`). A rounded figure is
  the multiple of 0.01 itself, not the double nearest to it. Taking the
  nearest double keeps the order of those multiples, so the window ordering is
  unaffected.
- Explanation and educational-note strings are modelled as one tag per
  branch: `ChaseEngine.Explanation`, and the reply variants of `BackendApi`.
- Date strings: parsing `launchDate` and formatting with `toISOString` or
  `isoformat` are not modelled. Instants are UTC dates with a time of day.
  `datetime.now()` is a parameter `now`, and the local-versus-UTC offset of
  the backend's naive datetimes is not modelled.
- `calculate_lambert_transfer`, `calculate_tsiolkovsky_fuel` and
  `InterstellarObject` are numerical physics.
  - The ΔV of each candidate is the parameter `candidateDeltaV`.
  - The fuel figures of both endpoints and the windows' `fuel_required` and
    `efficiency_score` fields are not part of the model.
  - `payload_mass` only feeds the fuel, so the window search does not take it
    as a parameter.
- The ΔV parameter is total, so the Lambert solver raises no exception in
  this model. The endpoints' HTTP 500 replies are not modelled.
- BackendApi.FindOptimalWindows: the model assumes a numeric `payloadMass`.
  For a non-numeric one (JSON `null`, a string), each feasible candidate's
  fuel computation raises a `TypeError` (api.py:104). The loop's handler
  catches it and skips the candidate (api.py:240-242), so the search returns
  no windows at all. The model instead keeps every candidate within reach.
- BackendApi.CalculateOptimalWindow: for the same reason, a non-numeric
  `payloadMass` gives the HTTP 200 "no feasible intercept windows" reply
  (api.py:266-272), not an error. The model reports the best window whenever
  a candidate is within reach.
- BackendApi.FindOptimalWindows requires a recognised propulsion key, because
  its only caller validates the key first; the `KeyError` path is not
  modelled. `search_days` is a parameter, and the endpoint passes 365.
- BackendApi.FindOptimalWindows: the in-place `list.sort` is modelled as the
  stable sort `Sequences.SortBy` applied to the accumulated list.
- ChaseEngine.AnytimeChase: for a propulsion key inherited from
  `Object.prototype` (`constructor`, `toString`, `__proto__`),
  `ChaseEngine.FuelMultiplier` and `ChaseEngine.SuccessRanges` model the
  lookups' fallbacks (2.0 and the ion ranges). In the app the lookups return
  the inherited member instead. The success band then throws a `TypeError`
  and the failure bands report `NaN` fuel. The model treats such a key like
  any other unknown key.
- ChaseEngine.EstimatedTravelTime: for a key inherited from `Object.prototype`
  the modal does not throw. The inherited member has no `timeMod`, so the
  modal shows `NaN` days. The model gives `None` for every key the table
  lacks, which matches the throw only for a key that is absent altogether.
- ChaseEngine.EstimatedDeltaV: likewise, for a key inherited from
  `Object.prototype` the modal shows the string `"NaN"`, where the model
  gives `None`.
- MissionDiary.Lower: lowercasing is modelled on A–Z only. Other letters
  keep their case, whereas `toLowerCase` also maps non-ASCII letters.
- MissionDiary.NewestFirst: timestamps are whole milliseconds. Records whose
  `timestamp` does not parse as a date, which would sort as `NaN`, are not
  modelled.
- A propulsion value written as `Unrecognized(s)` with `s` one of the four
  known keys is never produced by `Propulsion.FromKey`. The operations treat
  it as unrecognised.
