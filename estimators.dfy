/**
 * Per-match estimators of the newer statistics engine (internal/ui/helpers.go):
 * advanced metrics derived from a single match record. Go's float64 is modelled
 * as `real`, and Go's `int(x)` conversion as truncation toward zero.
 */
module Estimators {
  import opened Entity

  /** Go's float-to-int conversion: the integer part, rounding toward zero. */
  function Trunc(x: real): (r: int)
    ensures x >= 0.0 ==> 0 <= r && r as real <= x < r as real + 1.0
    ensures x < 0.0 ==> r <= 0 && x <= r as real < x + 1.0
  {
    if x >= 0.0 then x.Floor else -((-x).Floor)
  }

  /** Truncating a whole number of events scaled by a fraction stays between 0 and that number. */
  lemma TruncFraction(n: int, c: real)
    requires n >= 0 && 0.0 <= c <= 1.0
    ensures 0 <= Trunc(n as real * c) <= n
  {
    var x := n as real * c;
    assert 0.0 <= x;
    assert n as real - x == n as real * (1.0 - c);
    assert x <= n as real;
  }

  /** Average damage per round: the stored value when positive, otherwise an estimate
      from kills and assists over 30 rounds. */
  function ADR(m: MatchSummary): (r: real)
    ensures m.adr > 0.0 ==> r == m.adr
    ensures m.adr <= 0.0 ==> r * 30.0 == 100.0 * m.kills as real + 50.0 * m.assists as real
    ensures m.kills >= 0 && m.assists >= 0 ==> r >= 0.0
  {
    if m.adr > 0.0 then m.adr
    else (m.kills as real * 100.0 + m.assists as real * 50.0) / 30.0
  }

  /** The weighted rating, floored at 0. */
  function HLTVRating(m: MatchSummary): (r: real)
    ensures r >= 0.0
    ensures r > 0.0 ==> r == m.kdRatio * 0.5 + m.headshotsPercentage / 100.0 * 0.3 + ADR(m) / 100.0 * 0.2
    ensures m.kdRatio * 0.5 + m.headshotsPercentage / 100.0 * 0.3 + ADR(m) / 100.0 * 0.2 >= 0.0 ==>
      r == m.kdRatio * 0.5 + m.headshotsPercentage / 100.0 * 0.3 + ADR(m) / 100.0 * 0.2
  {
    var rating := m.kdRatio * 0.5 + m.headshotsPercentage / 100.0 * 0.3 + ADR(m) / 100.0 * 0.2;
    if rating < 0.0 then 0.0 else rating
  }

  /** A better K/D, everything else equal, never lowers the rating. */
  lemma {:induction false} RatingMonotoneInKD(m: MatchSummary, kd: real)
    requires m.kdRatio <= kd
    ensures HLTVRating(m) <= HLTVRating(m.(kdRatio := kd))
  {
    assert ADR(m) == ADR(m.(kdRatio := kd));
  }

  /** Estimated first kills: 30% of the kills, truncated. */
  function FirstKills(m: MatchSummary): (r: int)
    ensures m.kills >= 0 ==> 0 <= r <= m.kills && r as real <= m.kills as real * 0.3 < r as real + 1.0
  {
    TruncFractionOf(m.kills, 0.3)
  }

  /** Estimated first deaths: 20% of the deaths, truncated. */
  function FirstDeaths(m: MatchSummary): (r: int)
    ensures m.deaths >= 0 ==> 0 <= r <= m.deaths && r as real <= m.deaths as real * 0.2 < r as real + 1.0
  {
    TruncFractionOf(m.deaths, 0.2)
  }

  /** Estimated clutch wins: 10% of the kills in a won match with K/D above 1, otherwise none. */
  function ClutchWins(m: MatchSummary): (r: int)
    ensures !(m.result == "Win" && m.kdRatio > 1.0) ==> r == 0
    ensures m.kills >= 0 ==> 0 <= r <= m.kills
    ensures m.kills >= 0 && m.result == "Win" && m.kdRatio > 1.0 ==> r as real <= m.kills as real * 0.1 < r as real + 1.0
  {
    if m.result == "Win" && m.kdRatio > 1.0 then TruncFractionOf(m.kills, 0.1) else 0
  }

  /** Estimated entry frags: 25% of the kills, truncated. */
  function EntryFrags(m: MatchSummary): (r: int)
    ensures m.kills >= 0 ==> 0 <= r <= m.kills && r as real <= m.kills as real * 0.25 < r as real + 1.0
  {
    TruncFractionOf(m.kills, 0.25)
  }

  /** Estimated flash assists: 40% of the assists, truncated. */
  function FlashAssists(m: MatchSummary): (r: int)
    ensures m.assists >= 0 ==> 0 <= r <= m.assists && r as real <= m.assists as real * 0.4 < r as real + 1.0
  {
    TruncFractionOf(m.assists, 0.4)
  }

  /** int(n * c) for a fraction c. */
  function TruncFractionOf(n: int, c: real): (r: int)
    requires 0.0 <= c <= 1.0
    ensures n >= 0 ==> 0 <= r <= n && r as real <= n as real * c < r as real + 1.0
  {
    if n >= 0 then TruncFraction(n, c); Trunc(n as real * c) else Trunc(n as real * c)
  }

  /** Estimated utility damage: the float expression is a whole number, so the truncation is exact. */
  function UtilityDamage(m: MatchSummary): (r: int)
    ensures r == 20 * m.assists + 5 * m.kills
  {
    Trunc(m.assists as real * 20.0 + m.kills as real * 5.0)
  }

  /** Consistency: a step function of the K/D ratio. */
  function ConsistencyScore(m: MatchSummary): (r: real)
    ensures r == 50.0 || r == 60.0 || r == 70.0 || r == 80.0 || r == 90.0
    ensures r == 90.0 <==> m.kdRatio >= 1.5
    ensures r == 80.0 <==> 1.2 <= m.kdRatio < 1.5
    ensures r == 70.0 <==> 1.0 <= m.kdRatio < 1.2
    ensures r == 60.0 <==> 0.8 <= m.kdRatio < 1.0
    ensures r == 50.0 <==> m.kdRatio < 0.8
  {
    var kd := m.kdRatio;
    if kd >= 1.5 then 90.0
    else if kd >= 1.2 then 80.0
    else if kd >= 1.0 then 70.0
    else if kd >= 0.8 then 60.0
    else 50.0
  }

  /** The consistency score never decreases as the K/D ratio grows. */
  lemma ConsistencyMonotone(m1: MatchSummary, m2: MatchSummary)
    requires m1.kdRatio <= m2.kdRatio
    ensures ConsistencyScore(m1) <= ConsistencyScore(m2)
  {
  }

  /** Impact: K/D weighted by 40 plus headshot percentage weighted by 0.6. */
  function ImpactScore(m: MatchSummary): (r: real)
    ensures m.kdRatio >= 0.0 && m.headshotsPercentage >= 0.0 ==> r >= 0.0
  {
    m.kdRatio * 40.0 + m.headshotsPercentage * 0.6
  }

  /** Impact grows with both K/D and headshot percentage. */
  lemma ImpactMonotone(m1: MatchSummary, m2: MatchSummary)
    requires m1.kdRatio <= m2.kdRatio && m1.headshotsPercentage <= m2.headshotsPercentage
    ensures ImpactScore(m1) <= ImpactScore(m2)
  {
  }

  /** Clutch: 30 per K/D point in a won match with K/D above 1, otherwise a flat 20. */
  function ClutchScore(m: MatchSummary): (r: real)
    ensures r >= 20.0
    ensures r == 20.0 <==> !(m.result == "Win" && m.kdRatio > 1.0)
    ensures r > 30.0 <==> m.result == "Win" && m.kdRatio > 1.0
  {
    if m.result == "Win" && m.kdRatio > 1.0 then m.kdRatio * 30.0 else 20.0
  }

  /** Entry: kills times K/D times 2. */
  function EntryScore(m: MatchSummary): (r: real)
    ensures m.kills >= 0 && m.kdRatio >= 0.0 ==> r >= 0.0
    ensures m.kills == 0 || m.kdRatio == 0.0 ==> r == 0.0
  {
    m.kills as real * m.kdRatio * 2.0
  }

  /** Support: 15 per assist. */
  function SupportScore(m: MatchSummary): (r: real)
    ensures r >= 0.0 <==> m.assists >= 0
    ensures r == 0.0 <==> m.assists == 0
  {
    m.assists as real * 15.0
  }

  /** The two clutch estimates agree: clutch wins are only credited in a match whose clutch score exceeds 30. */
  lemma ClutchEstimatesAgree(m: MatchSummary)
    ensures ClutchWins(m) > 0 ==> ClutchScore(m) > 30.0
    ensures ClutchScore(m) == 20.0 ==> ClutchWins(m) == 0
  {
  }

  /** Detailed per-match player statistics. */
  datatype PlayerMatchStats = PlayerMatchStats(
    kills: int,
    deaths: int,
    assists: int,
    kdRatio: real,
    headshotsPercentage: real,
    adr: real,
    hltvRating: real,
    firstKills: int,
    firstDeaths: int,
    clutchWins: int,
    entryFrags: int,
    flashAssists: int,
    utilityDamage: int
  )

  /** Advanced performance metrics of one match. */
  datatype PerformanceMetrics = PerformanceMetrics(
    consistencyScore: real,
    impactScore: real,
    clutchScore: real,
    entryScore: real,
    supportScore: real
  )

  function PlayerStatsOf(m: MatchSummary): PlayerMatchStats
  {
    PlayerMatchStats(m.kills, m.deaths, m.assists, m.kdRatio, m.headshotsPercentage,
                     ADR(m), HLTVRating(m), FirstKills(m), FirstDeaths(m), ClutchWins(m),
                     EntryFrags(m), FlashAssists(m), UtilityDamage(m))
  }

  function PerformanceOf(m: MatchSummary): PerformanceMetrics
  {
    PerformanceMetrics(ConsistencyScore(m), ImpactScore(m), ClutchScore(m), EntryScore(m), SupportScore(m))
  }
}
