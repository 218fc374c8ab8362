/** The analytics of the mission diary: the stored missions newest first,
    the outcome filter and text search over them, the summary figures
    (success rate, average ΔV, best mission) and the chart series. */
module MissionDiary {
  import opened Wrappers
  import opened Rounding
  import opened Sequences

  /** The stored result of a mission. `deltaV` is the `toFixed(2)` string the
      engine returned, read back with `parseFloat`. */
  datatype MissionData = MissionData(
    interceptSuccess: bool,
    propulsionType: Option<string>,
    mode: Option<string>,
    deltaV: real,
    travelTime: int,
    fuelRequired: int,
    payloadMass: int)

  /** A diary record; `timestamp` in milliseconds since the epoch. */
  datatype Mission = Mission(name: string, data: MissionData, timestamp: int)

  // ---------------------------------------------------------------------
  // Newest first

  function Age(m: Mission): real { -(m.timestamp as real) }

  /** `missions`: a sorted copy of the stored list, newest first; an empty
      list while the query has not produced one. */
  function NewestFirst(stored: Option<seq<Mission>>): (r: seq<Mission>)
    ensures stored.None? ==> r == []
    ensures stored.Some? ==> multiset(r) == multiset(stored.value) && |r| == |stored.value|
    ensures forall i, j :: 0 <= i < j < |r| ==> r[i].timestamp >= r[j].timestamp
  {
    match stored
    case None => []
    case Some(all) =>
      var r := SortBy(all, Age);
      assert forall i, j :: 0 <= i < j < |r| ==> Age(r[i]) <= Age(r[j]);
      r
  }

  // ---------------------------------------------------------------------
  // Outcome filter and search

  predicate Succeeded(m: Mission) { m.data.interceptSuccess }
  predicate Failed(m: Mission) { !m.data.interceptSuccess }

  /** The outcome filter: 'success', 'failure', or anything else for all. */
  function ByOutcome(ms: seq<Mission>, filterType: string): (r: seq<Mission>)
    ensures filterType == "success" ==> forall m :: m in r <==> m in ms && m.data.interceptSuccess
    ensures filterType == "failure" ==> forall m :: m in r <==> m in ms && !m.data.interceptSuccess
    ensures filterType != "success" && filterType != "failure" ==> r == ms
  {
    if filterType == "success" then Filter(ms, Succeeded)
    else if filterType == "failure" then Filter(ms, Failed)
    else ms
  }

  /** `toLowerCase` on the letters A–Z. */
  function LowerChar(c: char): (l: char)
    ensures 'A' <= c <= 'Z' ==> 'a' <= l <= 'z'
    ensures !('A' <= c <= 'Z') ==> l == c
  {
    if 'A' <= c <= 'Z' then (c as int - 'A' as int + 'a' as int) as char else c
  }

  function Lower(s: string): (r: string)
    ensures |r| == |s|
    ensures forall i :: 0 <= i < |s| ==> r[i] == LowerChar(s[i])
  {
    if s == [] then [] else [LowerChar(s[0])] + Lower(s[1..])
  }

  /** `needle` occurs in `hay` starting at position `i`. */
  predicate OccursAt(hay: string, needle: string, i: int) {
    0 <= i && i + |needle| <= |hay| && hay[i..i + |needle|] == needle
  }

  /** `hay.includes(needle)`: `needle` occurs somewhere in `hay`. */
  function Includes(hay: string, needle: string): (b: bool)
    ensures b <==> exists i :: OccursAt(hay, needle, i)
    decreases |hay|
  {
    if |hay| < |needle| then false
    else if hay[..|needle|] == needle then
      assert OccursAt(hay, needle, 0);
      true
    else
      var b := Includes(hay[1..], needle);
      assert b ==> exists i :: OccursAt(hay, needle, i) by {
        if b {
          var k :| OccursAt(hay[1..], needle, k);
          assert hay[1..][k..k + |needle|] == hay[k + 1..k + 1 + |needle|];
          assert OccursAt(hay, needle, k + 1);
        }
      }
      assert (exists i :: OccursAt(hay, needle, i)) ==> b by {
        if exists i :: OccursAt(hay, needle, i) {
          var k :| OccursAt(hay, needle, k);
          assert k != 0;
          assert hay[1..][k - 1..k - 1 + |needle|] == hay[k..k + |needle|];
          assert OccursAt(hay[1..], needle, k - 1);
        }
      }
      b
  }

  /** The empty string occurs in every string. */
  lemma IncludesEmpty(hay: string)
    ensures Includes(hay, "")
  {
    assert OccursAt(hay, "", 0);
  }

  /** An optional field matches when it is present and contains the term. */
  predicate FieldMatches(field: Option<string>, lowered: string) {
    field.Some? && Includes(Lower(field.value), lowered)
  }

  /** The search test with the term already lowercased. */
  predicate SearchMatches(m: Mission, lowered: string) {
    Includes(Lower(m.name), lowered) ||
    FieldMatches(m.data.propulsionType, lowered) ||
    FieldMatches(m.data.mode, lowered)
  }

  /** The text search: an empty term keeps everything. */
  function Search(ms: seq<Mission>, term: string): (r: seq<Mission>)
    ensures term == "" ==> r == ms
    ensures term != "" ==> forall m :: m in r <==> m in ms && SearchMatches(m, Lower(term))
  {
    if term == "" then ms
    else
      var lowered := Lower(term);
      Filter(ms, m => SearchMatches(m, lowered))
  }

  /** `filteredMissions`. */
  function FilteredMissions(ms: seq<Mission>, filterType: string, term: string): (r: seq<Mission>)
    ensures forall m :: m in r ==> m in ms
  {
    Search(ByOutcome(ms, filterType), term)
  }

  /** The test a mission passes to survive both filters. */
  predicate Kept(m: Mission, filterType: string, term: string) {
    (filterType == "success" ==> m.data.interceptSuccess) &&
    (filterType == "failure" ==> !m.data.interceptSuccess) &&
    (term != "" ==> SearchMatches(m, Lower(term)))
  }

  /** The two filters together are one filter by `Kept`, so what they leave
      is an order-preserving subsequence of `missions`. */
  lemma FilteredIsOneFilter(ms: seq<Mission>, filterType: string, term: string)
    ensures FilteredMissions(ms, filterType, term) == Filter(ms, m => Kept(m, filterType, term))
    ensures IsSubsequence(FilteredMissions(ms, filterType, term), ms)
  {
    var kept := m => Kept(m, filterType, term);
    var outcome: Mission -> bool :=
      if filterType == "success" then Succeeded
      else if filterType == "failure" then Failed
      else m => true;
    var search: Mission -> bool :=
      if term == "" then m => true else m => SearchMatches(m, Lower(term));
    FilterKeepsAll(ms, m => true);
    assert ByOutcome(ms, filterType) == Filter(ms, outcome);
    FilterKeepsAll(ByOutcome(ms, filterType), m => true);
    assert FilteredMissions(ms, filterType, term) == Filter(Filter(ms, outcome), search);
    FilterTwice(ms, outcome, search, kept);
    FilterIsSubsequence(ms, kept);
  }

  // ---------------------------------------------------------------------
  // Summary figures

  function SuccessCount(ms: seq<Mission>): (n: nat)
    ensures n <= |ms|
  {
    |Filter(ms, Succeeded)|
  }

  /** `getSuccessRate`: the percentage of missions that intercepted. */
  function SuccessRate(ms: seq<Mission>): (r: int)
    ensures ms == [] ==> r == 0
    ensures 0 <= r <= 100
    ensures ms != [] ==> r == Percentage(SuccessCount(ms), |ms|)
  {
    if |ms| == 0 then 0 else Percentage(SuccessCount(ms), |ms|)
  }

  /** Every mission succeeded: the rate is 100; none did: it is 0. */
  lemma SuccessRateExtremes(ms: seq<Mission>)
    requires ms != []
    ensures (forall m :: m in ms ==> m.data.interceptSuccess) ==> SuccessRate(ms) == 100
    ensures (forall m :: m in ms ==> !m.data.interceptSuccess) ==> SuccessRate(ms) == 0
  {
    if forall m :: m in ms ==> m.data.interceptSuccess {
      FilterKeepsAll(ms, Succeeded);
    }
    if forall m :: m in ms ==> !m.data.interceptSuccess {
      var f := Filter(ms, Succeeded);
      assert multiset(f) == multiset{};
    }
  }

  /** The ΔV values summed left to right, as `reduce` does. */
  function SumDeltaV(ms: seq<Mission>): real
    decreases |ms|
  {
    if ms == [] then 0.0 else SumDeltaV(ms[..|ms| - 1]) + ms[|ms| - 1].data.deltaV
  }

  /** `x` added up `n` times. */
  function Repeat(n: nat, x: real): real
    decreases n
  {
    if n == 0 then 0.0 else Repeat(n - 1, x) + x
  }

  lemma {:induction false} RepeatIsProduct(n: nat, x: real)
    ensures Repeat(n, x) == n as real * x
    decreases n
  {
    if n > 0 {
      RepeatIsProduct(n - 1, x);
      assert n as real * x == (n - 1) as real * x + x;
    }
  }

  /** The sum of values all in [lo, hi] lies between n·lo and n·hi. */
  lemma {:induction false} SumBetween(ms: seq<Mission>, lo: real, hi: real)
    requires forall m :: m in ms ==> lo <= m.data.deltaV <= hi
    ensures |ms| as real * lo <= SumDeltaV(ms) <= |ms| as real * hi
  {
    SumRepeatBetween(ms, lo, hi);
    RepeatIsProduct(|ms|, lo);
    RepeatIsProduct(|ms|, hi);
  }

  lemma {:induction false} SumRepeatBetween(ms: seq<Mission>, lo: real, hi: real)
    requires forall m :: m in ms ==> lo <= m.data.deltaV <= hi
    ensures Repeat(|ms|, lo) <= SumDeltaV(ms) <= Repeat(|ms|, hi)
    decreases |ms|
  {
    if ms != [] {
      var init := ms[..|ms| - 1];
      assert forall m :: m in init ==> m in ms;
      assert ms[|ms| - 1] in ms;
      SumRepeatBetween(init, lo, hi);
    }
  }

  /** `getAverageDeltaV`: the mean ΔV to one decimal, 0 for no missions. */
  function AverageDeltaV(ms: seq<Mission>): (r: real)
    ensures ms == [] ==> r == 0.0
    ensures ms != [] ==> var mean := SumDeltaV(ms) / |ms| as real;
              mean - 0.05 <= r <= mean + 0.05 && (0.0 <= mean ==> mean - 0.05 < r)
  {
    if |ms| == 0 then 0.0 else Fixed1(SumDeltaV(ms) / |ms| as real)
  }

  /** The average lies between the smallest and the largest ΔV, up to the
      rounding to one decimal. */
  lemma AverageBetween(ms: seq<Mission>, lo: real, hi: real)
    requires ms != []
    requires forall m :: m in ms ==> lo <= m.data.deltaV <= hi
    ensures lo - 0.05 <= AverageDeltaV(ms) <= hi + 0.05
    ensures 0.0 <= lo ==> lo - 0.05 < AverageDeltaV(ms)
  {
    SumBetween(ms, lo, hi);
    MeanBetween(SumDeltaV(ms), |ms| as real, lo, hi);
  }

  lemma MeanBetween(sum: real, n: real, lo: real, hi: real)
    requires 0.0 < n && n * lo <= sum <= n * hi
    ensures lo <= sum / n <= hi
  {
    var mean := sum / n;
    assert mean - lo == (sum - n * lo) / n;
    assert hi - mean == (n * hi - sum) / n;
  }

  function DeltaVOf(m: Mission): real { m.data.deltaV }

  /** `getBestMission`: the first successful mission after sorting the
      successes by ascending ΔV; `None` (`undefined`) when none succeeded. */
  function BestMission(ms: seq<Mission>): (b: Option<Mission>)
    ensures b.None? <==> forall m :: m in ms ==> !m.data.interceptSuccess
    ensures b.Some? ==> b.value in ms && b.value.data.interceptSuccess
    ensures b.Some? ==> forall m :: m in ms && m.data.interceptSuccess ==> b.value.data.deltaV <= m.data.deltaV
  {
    var successes := Filter(ms, Succeeded);
    var sorted := SortBy(successes, DeltaVOf);
    if sorted == [] then
      assert successes == [];
      None
    else
      assert sorted[0] in multiset(successes);
      assert forall m :: m in ms && m.data.interceptSuccess ==> sorted[0].data.deltaV <= m.data.deltaV by {
        forall m | m in ms && m.data.interceptSuccess ensures sorted[0].data.deltaV <= m.data.deltaV {
          assert m in multiset(successes);
          var j :| 0 <= j < |sorted| && sorted[j] == m;
          assert j == 0 || DeltaVOf(sorted[0]) <= DeltaVOf(sorted[j]);
        }
      }
      Some(sorted[0])
  }

  // ---------------------------------------------------------------------
  // Chart series

  datatype ChartPoint = ChartPoint(name: string, travelTime: int, fuelEfficiency: real)

  /** One chart point: payload per kilogram of fuel to two decimals, 0 when
      no fuel was needed. */
  function Point(m: Mission): (p: ChartPoint)
    ensures p.name == m.name && p.travelTime == m.data.travelTime
    ensures m.data.fuelRequired <= 0 ==> p.fuelEfficiency == 0.0
    ensures m.data.fuelRequired > 0 ==>
              var e := m.data.payloadMass as real / m.data.fuelRequired as real;
              e - 0.005 <= p.fuelEfficiency <= e + 0.005 && (0.0 <= e ==> e - 0.005 < p.fuelEfficiency)
  {
    ChartPoint(m.name, m.data.travelTime,
               if m.data.fuelRequired > 0
               then Fixed2(m.data.payloadMass as real / m.data.fuelRequired as real)
               else 0.0)
  }

  /** `chartData`: one point per filtered mission, oldest first. */
  function ChartData(filtered: seq<Mission>): (r: seq<ChartPoint>)
    ensures |r| == |filtered|
    ensures forall i :: 0 <= i < |r| ==> r[i] == Point(filtered[|filtered| - 1 - i])
  {
    Reverse(seq(|filtered|, i requires 0 <= i < |filtered| => Point(filtered[i])))
  }
}
