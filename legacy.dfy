/**
 * The older revision of the user interface logic (internal/ui/models.go).
 * It declares the same operations as the newer files with different rules:
 * every result other than "Win" is a loss, best and worst K/D use -1 and 999
 * as "unset" markers, the empty streak is tagged "none", the rating is capped
 * at 2.0 and the first score part is parsed even without a dash.
 *
 * The fold's specification functions (win tally, sums, map counts) and the
 * recent-players list are shared with module Stats, where the code is the same.
 */
module Legacy {
  import opened Base
  import opened GoStrings
  import opened Entity
  import Stats
  import Estimators

  // =====================================================================
  // Data
  // =====================================================================

  datatype StatsSummary = StatsSummary(
    totalMatches: int,
    wins: int,
    losses: int,
    winRate: real,
    totalKills: int,
    totalDeaths: int,
    totalAssists: int,
    averageKDRatio: real,
    averageHS: real,
    bestKDRatio: real,
    worstKDRatio: real,
    mostPlayedMap: string,
    mapStats: map<string, int>,
    kdChartData: seq<real>,
    currentStreak: int,
    streakType: string,
    longestWinStreak: int,
    longestLossStreak: int
  )

  const EmptySummary := StatsSummary(0, 0, 0, 0.0, 0, 0, 0, 0.0, 0.0, 0.0, 0.0, "", map[], [], 0, "", 0, 0)

  const UnsetBest: real := -1.0
  const UnsetWorst: real := 999.0

  // =====================================================================
  // Streaks: every result other than "Win" is a loss
  // =====================================================================

  predicate IsWin(m: MatchSummary) { m.result == "Win" }

  /** The number of leading matches whose outcome (win or not) is `win`. */
  function LeadingRun(ms: seq<MatchSummary>, win: bool): (r: nat)
    ensures r <= |ms|
    ensures forall j :: 0 <= j < r ==> IsWin(ms[j]) == win
    ensures r < |ms| ==> IsWin(ms[r]) != win
  {
    if ms == [] || IsWin(ms[0]) != win then 0 else 1 + LeadingRun(ms[1..], win)
  }

  /** The current streak: the run of the most recent outcome, negated for losses; "none" when empty. */
  function CurrentStreak(ms: seq<MatchSummary>): (int, string)
  {
    if ms == [] then (0, "none")
    else if IsWin(ms[0]) then (LeadingRun(ms, true), "win")
    else (-(LeadingRun(ms, false) as int), "loss")
  }

  /** Every match of ms[a..b] has outcome `win`. */
  ghost predicate Uniform(ms: seq<MatchSummary>, a: int, b: int, win: bool)
    requires 0 <= a <= b <= |ms|
  {
    forall k :: a <= k < b ==> IsWin(ms[k]) == win
  }

  /** `n` is the length of the longest stretch of matches that all have outcome `win`. */
  ghost predicate IsLongestRun(ms: seq<MatchSummary>, win: bool, n: int)
  {
    && (exists a, b :: 0 <= a <= b <= |ms| && Uniform(ms, a, b, win) && b - a == n)
    && (forall a, b :: 0 <= a <= b <= |ms| && Uniform(ms, a, b, win) ==> b - a <= n)
  }

  /** The longest-streak loop after i matches: ms[i - temp..i] is the current stretch of
      outcome `win`, and `longest` is the longest such stretch so far, at ms[wa..wb]. */
  ghost predicate Tracking(ms: seq<MatchSummary>, i: nat, win: bool, temp: int, longest: int, wa: int, wb: int)
    requires i <= |ms|
  {
    && 0 <= temp <= i && Uniform(ms, i - temp, i, win) && (temp < i ==> IsWin(ms[i - temp - 1]) != win)
    && 0 <= wa <= wb <= i && Uniform(ms, wa, wb, win) && wb - wa == longest
    && (forall a, b :: 0 <= a <= b <= i && Uniform(ms, a, b, win) ==> b - a <= longest)
  }

  lemma TrackingStep(ms: seq<MatchSummary>, i: nat, win: bool, temp: int, longest: int, wa: int, wb: int)
    requires i < |ms| && Tracking(ms, i, win, temp, longest, wa, wb)
    ensures IsWin(ms[i]) == win && temp + 1 > longest ==>
      Tracking(ms, i + 1, win, temp + 1, temp + 1, i - temp, i + 1)
    ensures IsWin(ms[i]) == win && temp + 1 <= longest ==>
      Tracking(ms, i + 1, win, temp + 1, longest, wa, wb)
    ensures IsWin(ms[i]) != win ==>
      Tracking(ms, i + 1, win, 0, longest, wa, wb)
  {
    if IsWin(ms[i]) == win {
      forall a, b | 0 <= a <= b <= i + 1 && Uniform(ms, a, b, win)
        ensures b - a <= longest || b - a <= temp + 1
      {
        if b == i + 1 && temp < i {
          ExcludesPosition(ms, a, b, win, i - temp - 1);
        }
      }
    } else {
      forall a, b | 0 <= a <= b <= i + 1 && Uniform(ms, a, b, win)
        ensures b - a <= longest
      {
        if b == i + 1 {
          ExcludesPosition(ms, a, b, win, i);
        }
      }
    }
  }

  /** calculateStreaks (older revision). */
  method CalculateStreaks(ms: seq<MatchSummary>)
    returns (currentStreak: int, streakType: string, longestWinStreak: int, longestLossStreak: int)
    ensures (currentStreak, streakType) == CurrentStreak(ms)
    ensures IsLongestRun(ms, true, longestWinStreak)
    ensures IsLongestRun(ms, false, longestLossStreak)
  {
    if |ms| == 0 {
      assert Uniform(ms, 0, 0, true) && Uniform(ms, 0, 0, false);
      return 0, "none", 0, 0;
    }

    currentStreak, streakType := 0, "none";
    var i := 0;
    while i < |ms|
      invariant 0 <= i <= |ms|
      invariant streakType == "none" ==> i == 0 && currentStreak == 0
      invariant streakType == "win" ==> 0 < i && currentStreak == i && forall j :: 0 <= j < i ==> IsWin(ms[j])
      invariant streakType == "loss" ==> 0 < i && currentStreak == i && forall j :: 0 <= j < i ==> !IsWin(ms[j])
      invariant streakType == "none" || streakType == "win" || streakType == "loss"
    {
      if ms[i].result == "Win" {
        if streakType == "win" || streakType == "none" {
          currentStreak := currentStreak + 1;
          streakType := "win";
        } else {
          break;
        }
      } else {
        if streakType == "loss" || streakType == "none" {
          currentStreak := currentStreak + 1;
          streakType := "loss";
        } else {
          break;
        }
      }
      i := i + 1;
    }
    if streakType == "loss" {
      currentStreak := -currentStreak;
    }

    longestWinStreak, longestLossStreak := ScanLongestStreaks(ms);
  }

  /** The second loop of the older calculateStreaks. */
  method ScanLongestStreaks(ms: seq<MatchSummary>) returns (longestWinStreak: int, longestLossStreak: int)
    ensures IsLongestRun(ms, true, longestWinStreak)
    ensures IsLongestRun(ms, false, longestLossStreak)
  {
    longestWinStreak, longestLossStreak := 0, 0;
    var currentWinStreak, currentLossStreak := 0, 0;
    ghost var aW, bW, aL, bL := 0, 0, 0, 0;
    var k := 0;
    while k < |ms|
      invariant 0 <= k <= |ms|
      invariant Tracking(ms, k, true, currentWinStreak, longestWinStreak, aW, bW)
      invariant Tracking(ms, k, false, currentLossStreak, longestLossStreak, aL, bL)
    {
      TrackingStep(ms, k, true, currentWinStreak, longestWinStreak, aW, bW);
      TrackingStep(ms, k, false, currentLossStreak, longestLossStreak, aL, bL);
      if ms[k].result == "Win" {
        currentWinStreak := currentWinStreak + 1;
        currentLossStreak := 0;
        if currentWinStreak > longestWinStreak {
          longestWinStreak := currentWinStreak;
          aW, bW := k + 1 - currentWinStreak, k + 1;
        }
      } else {
        currentLossStreak := currentLossStreak + 1;
        currentWinStreak := 0;
        if currentLossStreak > longestLossStreak {
          longestLossStreak := currentLossStreak;
          aL, bL := k + 1 - currentLossStreak, k + 1;
        }
      }
      k := k + 1;
    }
  }

  /** The current streak never exceeds the longest streak of its kind, and a non-empty list always
      has a streak of at least one match. */
  lemma CurrentWithinLongest(ms: seq<MatchSummary>, longestWin: int, longestLoss: int)
    requires IsLongestRun(ms, true, longestWin) && IsLongestRun(ms, false, longestLoss)
    ensures ms != [] ==> CurrentStreak(ms).0 != 0
    ensures CurrentStreak(ms).0 > 0 ==> CurrentStreak(ms).0 <= longestWin
    ensures CurrentStreak(ms).0 < 0 ==> -CurrentStreak(ms).0 <= longestLoss
  {
    if ms != [] {
      var w := IsWin(ms[0]);
      assert Uniform(ms, 0, LeadingRun(ms, w), w);
    }
  }

  /** [Win, Draw, Win]: the older rules count the draw as a loss, so the current streak is one
      win and the longest win and loss streaks are both 1. */
  lemma NonWinIsLoss(ms: seq<MatchSummary>)
    requires |ms| == 3 && ms[0].result == "Win" && ms[1].result == "Draw" && ms[2].result == "Win"
    ensures CurrentStreak(ms) == (1, "win")
    ensures IsLongestRun(ms, true, 1) && IsLongestRun(ms, false, 1)
  {
    assert LeadingRun(ms, true) == 1 by { assert !IsWin(ms[1]); }
    assert Uniform(ms, 0, 1, true) && Uniform(ms, 1, 2, false);
    forall a, b | 0 <= a <= b <= 3 && Uniform(ms, a, b, true) ensures b - a <= 1 {
      ExcludesPosition(ms, a, b, true, 1);
    }
    forall a, b | 0 <= a <= b <= 3 && Uniform(ms, a, b, false) ensures b - a <= 1 {
      ExcludesPosition(ms, a, b, false, 0);
      ExcludesPosition(ms, a, b, false, 2);
    }
  }

  lemma ExcludesPosition(ms: seq<MatchSummary>, a: nat, b: nat, win: bool, k: nat)
    requires a <= b <= |ms| && k < |ms| && IsWin(ms[k]) != win && Uniform(ms, a, b, win)
    ensures k < a || b <= k
  {
  }

  // =====================================================================
  // calculateStats (older revision)
  // =====================================================================

  /** Some match has a positive K/D. */
  ghost predicate AnyPositiveKD(ms: seq<MatchSummary>)
  {
    exists j :: 0 <= j < |ms| && ms[j].kdRatio > 0.0
  }

  /** Some match has a positive K/D below the 999 marker. */
  ghost predicate AnyKDBelowMarker(ms: seq<MatchSummary>)
  {
    exists j :: 0 <= j < |ms| && 0.0 < ms[j].kdRatio < UnsetWorst
  }

  ghost predicate Summarizes(ms: seq<MatchSummary>, st: StatsSummary)
    requires |ms| > 0
  {
    var n := |ms|;
    && st.totalMatches == n
    && Stats.Totals(ms, n, st.wins, st.losses, st.totalKills, st.totalDeaths, st.totalAssists)
    && st.winRate == st.wins as real / n as real * 100.0
    && st.averageKDRatio == Stats.SumPositiveKD(ms, n) / n as real
    && st.averageHS == Stats.SumPositiveHS(ms, n) / n as real
    // best: the largest positive K/D, or 0 when there is none
    && (!AnyPositiveKD(ms) ==> st.bestKDRatio == 0.0)
    && (AnyPositiveKD(ms) ==>
          (exists j :: 0 <= j < n && ms[j].kdRatio > 0.0 && ms[j].kdRatio == st.bestKDRatio)
          && forall j :: 0 <= j < n ==> ms[j].kdRatio <= st.bestKDRatio)
    // worst: the smallest positive K/D, or 0 when none is below the 999 marker
    && (!AnyKDBelowMarker(ms) ==> st.worstKDRatio == 0.0)
    && (AnyKDBelowMarker(ms) ==>
          (exists j :: 0 <= j < n && ms[j].kdRatio > 0.0 && ms[j].kdRatio == st.worstKDRatio)
          && forall j :: 0 <= j < n && ms[j].kdRatio > 0.0 ==> st.worstKDRatio <= ms[j].kdRatio)
    // the chart is exactly the K/D sequence
    && |st.kdChartData| == n
    && (forall j :: 0 <= j < n ==> st.kdChartData[j] == ms[j].kdRatio)
    && st.mapStats == Stats.MapCounts(ms, n)
    && Stats.IsArgMax(st.mapStats, st.mostPlayedMap)
    && (st.currentStreak, st.streakType) == CurrentStreak(ms)
    && IsLongestRun(ms, true, st.longestWinStreak)
    && IsLongestRun(ms, false, st.longestLossStreak)
  }

  /** What the loop knows about best and worst K/D after i matches: each is still its
      marker or some positive K/D seen so far, and bounds every positive K/D seen so far. */
  ghost predicate Extremes(ms: seq<MatchSummary>, i: nat, best: real, worst: real)
    requires i <= |ms|
  {
    && (best == UnsetBest || exists j :: 0 <= j < i && ms[j].kdRatio > 0.0 && ms[j].kdRatio == best)
    && (forall j :: 0 <= j < i && ms[j].kdRatio > 0.0 ==> ms[j].kdRatio <= best)
    && worst <= UnsetWorst
    && (worst == UnsetWorst || exists j :: 0 <= j < i && ms[j].kdRatio > 0.0 && ms[j].kdRatio == worst)
    && (forall j :: 0 <= j < i && ms[j].kdRatio > 0.0 ==> worst <= ms[j].kdRatio)
  }

  lemma ExtremesStep(ms: seq<MatchSummary>, i: nat, best: real, worst: real)
    requires i < |ms| && Extremes(ms, i, best, worst)
    ensures var kd := ms[i].kdRatio;
      Extremes(ms, i + 1,
               if kd > 0.0 && kd > best then kd else best,
               if kd > 0.0 && kd < worst then kd else worst)
  {
  }

  /** After the loop, resetting an untouched marker to 0 gives the summary's best and worst K/D. */
  lemma ExtremesFinal(ms: seq<MatchSummary>, best: real, worst: real)
    requires Extremes(ms, |ms|, best, worst)
    ensures var b := if best == UnsetBest then 0.0 else best;
      && (!AnyPositiveKD(ms) ==> b == 0.0)
      && (AnyPositiveKD(ms) ==>
            (exists j :: 0 <= j < |ms| && ms[j].kdRatio > 0.0 && ms[j].kdRatio == b)
            && forall j :: 0 <= j < |ms| ==> ms[j].kdRatio <= b)
    ensures var w := if worst == UnsetWorst then 0.0 else worst;
      && (!AnyKDBelowMarker(ms) ==> w == 0.0)
      && (AnyKDBelowMarker(ms) ==>
            (exists j :: 0 <= j < |ms| && ms[j].kdRatio > 0.0 && ms[j].kdRatio == w)
            && forall j :: 0 <= j < |ms| && ms[j].kdRatio > 0.0 ==> w <= ms[j].kdRatio)
  {
    if AnyPositiveKD(ms) {
      var j :| 0 <= j < |ms| && ms[j].kdRatio > 0.0;
      assert best >= ms[j].kdRatio;
    }
    if AnyKDBelowMarker(ms) {
      var j :| 0 <= j < |ms| && 0.0 < ms[j].kdRatio < UnsetWorst;
      assert worst <= ms[j].kdRatio;
    }
  }

  /** calculateStats (older revision). */
  method CalculateStats(ms: seq<MatchSummary>) returns (st: StatsSummary)
    ensures |ms| == 0 ==> st == EmptySummary
    ensures |ms| > 0 ==> Summarizes(ms, st)
  {
    var n := |ms|;
    if n == 0 {
      return EmptySummary;
    }
    var wins, losses, kills, deaths, assists, totalKDRatio, totalHS, bestKD, worstKD, mapCount, chart := Accumulate(ms);
    var mapStats, mostPlayed := CopyCounts(mapCount);
    var current, streakType, longestWin, longestLoss := CalculateStreaks(ms);
    ExtremesFinal(ms, bestKD, worstKD);
    if bestKD == UnsetBest {
      bestKD := 0.0;
    }
    if worstKD == UnsetWorst {
      worstKD := 0.0;
    }
    st := StatsSummary(n, wins, losses, wins as real / n as real * 100.0, kills, deaths, assists,
                       totalKDRatio / n as real, totalHS / n as real, bestKD, worstKD,
                       mostPlayed, mapStats, chart, current, streakType, longestWin, longestLoss);
  }

  /** The main loop of the older calculateStats: the counters, the positive-only sums,
      best and worst K/D against their markers, the appended chart and the per-map counts. */
  method Accumulate(ms: seq<MatchSummary>)
    returns (wins: int, losses: int, kills: int, deaths: int, assists: int,
             totalKDRatio: real, totalHS: real, bestKD: real, worstKD: real,
             mapCount: map<string, int>, chart: seq<real>)
    ensures Stats.Totals(ms, |ms|, wins, losses, kills, deaths, assists)
    ensures totalKDRatio == Stats.SumPositiveKD(ms, |ms|) && totalHS == Stats.SumPositiveHS(ms, |ms|)
    ensures Extremes(ms, |ms|, bestKD, worstKD)
    ensures mapCount == Stats.MapCounts(ms, |ms|)
    ensures |chart| == |ms| && forall j :: 0 <= j < |ms| ==> chart[j] == ms[j].kdRatio
  {
    var n := |ms|;
    wins, losses, kills, deaths, assists := 0, 0, 0, 0, 0;
    bestKD, worstKD := UnsetBest, UnsetWorst;
    chart := [];
    totalKDRatio, totalHS := 0.0, 0.0;
    mapCount := map[];
    var i := 0;
    while i < n
      invariant 0 <= i <= n
      invariant Stats.Totals(ms, i, wins, losses, kills, deaths, assists)
      invariant totalKDRatio == Stats.SumPositiveKD(ms, i) && totalHS == Stats.SumPositiveHS(ms, i)
      invariant |chart| == i && forall j :: 0 <= j < i ==> chart[j] == ms[j].kdRatio
      invariant Extremes(ms, i, bestKD, worstKD)
      invariant mapCount == Stats.MapCounts(ms, i)
    {
      var m := ms[i];
      Stats.TotalsStep(ms, i, wins, losses, kills, deaths, assists);
      ExtremesStep(ms, i, bestKD, worstKD);
      if m.result == "Win" {
        wins := wins + 1;
      } else {
        losses := losses + 1;
      }
      kills := kills + m.kills;
      deaths := deaths + m.deaths;
      assists := assists + m.assists;
      if m.kdRatio > 0.0 {
        totalKDRatio := totalKDRatio + m.kdRatio;
        if m.kdRatio > bestKD {
          bestKD := m.kdRatio;
        }
        if m.kdRatio < worstKD {
          worstKD := m.kdRatio;
        }
      }
      chart := chart + [m.kdRatio];
      if m.headshotsPercentage > 0.0 {
        totalHS := totalHS + m.headshotsPercentage;
      }
      if m.mapName != "" {
        mapCount := mapCount[m.mapName := (if m.mapName in mapCount then mapCount[m.mapName] else 0) + 1];
      }
      i := i + 1;
    }
  }

  /** The last loop of the older calculateStats: copy the per-map counts and keep the first
      strictly larger count, in Go's unspecified key order. */
  method CopyCounts(mapCount: map<string, int>) returns (mapStats: map<string, int>, mostPlayed: string)
    ensures mapStats == mapCount
    ensures Stats.IsArgMax(mapStats, mostPlayed)
  {
    mapStats := map[];
    mostPlayed := "";
    var maxCount := 0;
    var rest := mapCount.Keys;
    while rest != {}
      invariant rest <= mapCount.Keys
      invariant mapStats == map k | k in mapCount && k !in rest :: mapCount[k]
      invariant maxCount >= 0
      invariant (mostPlayed == "" && maxCount == 0) || (mostPlayed in mapCount && mapCount[mostPlayed] == maxCount > 0)
      invariant forall k :: k in mapCount && k !in rest ==> mapCount[k] <= maxCount
      decreases rest
    {
      var k :| k in rest;
      mapStats := mapStats[k := mapCount[k]];
      if mapCount[k] > maxCount {
        maxCount := mapCount[k];
        mostPlayed := k;
      }
      rest := rest - {k};
    }
  }

  // =====================================================================
  // Match navigation (older revision)
  // =====================================================================

  datatype AppState =
    | StateSearch
    | StateProfile
    | StateMatches
    | StateStats
    | StateMatchDetail
    | StateLoading
    | StateError
    | StatePlayerSwitch

  datatype Cmd = NoCmd | Quit | LoadMatchDetail(matchID: string)

  /** The part of the older application model the match list reads or writes. */
  datatype AppModel = AppModel(state: AppState, matches: seq<MatchSummary>, selectedMatchIndex: nat, loading: bool)

  /** updateMatches (older revision). */
  function UpdateMatches(m: AppModel, key: string): (r: (AppModel, Cmd))
    ensures key == "ctrl+c" || key == "q" ==> r == (m, Quit)
    ensures key == "esc" ==> r == (m.(state := StateProfile), NoCmd)
    ensures key in {"up", "k"} ==>
      if m.selectedMatchIndex > 0 then r == (m.(selectedMatchIndex := m.selectedMatchIndex - 1), NoCmd)
      else r == (m, NoCmd)
    ensures key in {"down", "j"} ==>
      if m.selectedMatchIndex + 1 < |m.matches| then r == (m.(selectedMatchIndex := m.selectedMatchIndex + 1), NoCmd)
      else r == (m, NoCmd)
    ensures key in {"enter", "d"} ==>
      if m.selectedMatchIndex < |m.matches| then
        r == (m.(loading := true, state := StateLoading), LoadMatchDetail(m.matches[m.selectedMatchIndex].matchID))
      else r == (m, NoCmd)
    ensures key !in {"ctrl+c", "q", "esc", "up", "k", "down", "j", "enter", "d"} ==> r == (m, NoCmd)
    ensures r.0.matches == m.matches
    ensures r.1.LoadMatchDetail? ==>
      m.selectedMatchIndex < |m.matches| && r.1.matchID == m.matches[m.selectedMatchIndex].matchID
      && r.0 == m.(loading := true, state := StateLoading)
    ensures r.0.selectedMatchIndex != m.selectedMatchIndex ==>
      || r.0.selectedMatchIndex + 1 == m.selectedMatchIndex
      || r.0.selectedMatchIndex == m.selectedMatchIndex + 1 < |m.matches|
  {
    if key == "ctrl+c" || key == "q" then (m, Quit)
    else if key == "esc" then (m.(state := StateProfile), NoCmd)
    else if key == "up" || key == "k" then
      if m.selectedMatchIndex > 0 then (m.(selectedMatchIndex := m.selectedMatchIndex - 1), NoCmd)
      else (m, NoCmd)
    else if key == "down" || key == "j" then
      if m.selectedMatchIndex < |m.matches| - 1 then (m.(selectedMatchIndex := m.selectedMatchIndex + 1), NoCmd)
      else (m, NoCmd)
    else if key == "enter" || key == "d" then
      if |m.matches| > 0 && m.selectedMatchIndex < |m.matches| then
        (m.(loading := true, state := StateLoading), LoadMatchDetail(m.matches[m.selectedMatchIndex].matchID))
      else (m, NoCmd)
    else (m, NoCmd)
  }

  /** Navigation keeps the selection within [0, max(0, len - 1)]. */
  lemma NavigationStaysInRange(m: AppModel, key: string)
    requires m.selectedMatchIndex == 0 || m.selectedMatchIndex < |m.matches|
    ensures var r := UpdateMatches(m, key).0;
      r.selectedMatchIndex == 0 || r.selectedMatchIndex < |r.matches|
  {
  }

  // =====================================================================
  // Estimators (older revision)
  // =====================================================================

  /** ADR: always the estimate from kills and assists over 30 rounds. */
  function ADR(m: MatchSummary): (r: real)
    ensures r * 30.0 == 100.0 * m.kills as real + 50.0 * m.assists as real
    ensures m.kills >= 0 && m.assists >= 0 ==> r >= 0.0
  {
    (m.kills as real * 100.0 + m.assists as real * 50.0) / 30.0
  }

  /** The stored ADR plays no part in the older estimate. */
  lemma ADRIgnoresStoredValue(m: MatchSummary, adr: real)
    ensures ADR(m.(adr := adr)) == ADR(m)
  {
  }

  /** The older rating, capped at 2.0 and not floored. */
  function HLTVRating(m: MatchSummary): (r: real)
    ensures r <= 2.0
    ensures r < 2.0 ==> r == m.kdRatio * 0.4 + m.headshotsPercentage / 100.0 * 0.2 + ADR(m) / 100.0 * 0.4
    ensures m.kdRatio * 0.4 + m.headshotsPercentage / 100.0 * 0.2 + ADR(m) / 100.0 * 0.4 <= 2.0 ==>
      r == m.kdRatio * 0.4 + m.headshotsPercentage / 100.0 * 0.2 + ADR(m) / 100.0 * 0.4
  {
    var rating := m.kdRatio * 0.4 + m.headshotsPercentage / 100.0 * 0.2 + ADR(m) / 100.0 * 0.4;
    if rating > 2.0 then 2.0 else rating
  }

  /** A better K/D never lowers the older rating. */
  lemma RatingMonotoneInKD(m: MatchSummary, kd: real)
    requires m.kdRatio <= kd
    ensures HLTVRating(m) <= HLTVRating(m.(kdRatio := kd))
  {
  }

  /** First kills: 20% of the kills, truncated. */
  function FirstKills(m: MatchSummary): (r: int)
    ensures m.kills >= 0 ==> 0 <= r <= m.kills && r as real <= m.kills as real * 0.2 < r as real + 1.0
  {
    Estimators.TruncFractionOf(m.kills, 0.2)
  }

  /** First deaths: 15% of the deaths, truncated. */
  function FirstDeaths(m: MatchSummary): (r: int)
    ensures m.deaths >= 0 ==> 0 <= r <= m.deaths && r as real <= m.deaths as real * 0.15 < r as real + 1.0
  {
    Estimators.TruncFractionOf(m.deaths, 0.15)
  }

  /** Clutch wins: 2 above K/D 1.5, 1 above K/D 1.0, else 0; the result of the match is ignored. */
  function ClutchWins(m: MatchSummary): (r: int)
    ensures 0 <= r <= 2
    ensures r == 2 <==> m.kdRatio > 1.5
    ensures r == 0 <==> m.kdRatio <= 1.0
  {
    if m.kdRatio > 1.5 then 2 else if m.kdRatio > 1.0 then 1 else 0
  }

  lemma ClutchWinsMonotone(m1: MatchSummary, m2: MatchSummary)
    requires m1.kdRatio <= m2.kdRatio
    ensures ClutchWins(m1) <= ClutchWins(m2)
  {
  }

  /** Entry frags: 30% of the kills, truncated. */
  function EntryFrags(m: MatchSummary): (r: int)
    ensures m.kills >= 0 ==> 0 <= r <= m.kills && r as real <= m.kills as real * 0.3 < r as real + 1.0
  {
    Estimators.TruncFractionOf(m.kills, 0.3)
  }

  /** Flash assists: 40% of the assists, truncated. */
  function FlashAssists(m: MatchSummary): (r: int)
    ensures m.assists >= 0 ==> 0 <= r <= m.assists && r as real <= m.assists as real * 0.4 < r as real + 1.0
  {
    Estimators.TruncFractionOf(m.assists, 0.4)
  }

  /** Utility damage: 25 per assist, in integer arithmetic. */
  function UtilityDamage(m: MatchSummary): (r: int)
    ensures r % 25 == 0 && r / 25 == m.assists
  {
    m.assists * 25
  }

  /** Consistency: a step function of K/D with strict thresholds. */
  function ConsistencyScore(m: MatchSummary): (r: real)
    ensures r == 0.3 || r == 0.5 || r == 0.7 || r == 0.9
    ensures r == 0.9 <==> m.kdRatio > 1.5
    ensures r == 0.7 <==> 1.0 < m.kdRatio <= 1.5
    ensures r == 0.5 <==> 0.8 < m.kdRatio <= 1.0
    ensures r == 0.3 <==> m.kdRatio <= 0.8
  {
    if m.kdRatio > 1.5 then 0.9
    else if m.kdRatio > 1.0 then 0.7
    else if m.kdRatio > 0.8 then 0.5
    else 0.3
  }

  lemma ConsistencyMonotone(m1: MatchSummary, m2: MatchSummary)
    requires m1.kdRatio <= m2.kdRatio
    ensures ConsistencyScore(m1) <= ConsistencyScore(m2)
  {
  }

  /** Impact: kills and assists weighted 0.6 and 0.4, over 20. */
  function ImpactScore(m: MatchSummary): (r: real)
    ensures r * 20.0 == m.kills as real * 0.6 + m.assists as real * 0.4
    ensures m.kills >= 0 && m.assists >= 0 ==> r >= 0.0
  {
    (m.kills as real * 0.6 + m.assists as real * 0.4) / 20.0
  }

  /** Clutch: 0.8 for a win above K/D 1.2, 0.6 for any other win, 0.4 otherwise. */
  function ClutchScore(m: MatchSummary): (r: real)
    ensures r == 0.4 || r == 0.6 || r == 0.8
    ensures r > 0.4 <==> IsWin(m)
    ensures r == 0.8 <==> IsWin(m) && m.kdRatio > 1.2
  {
    if m.result == "Win" && m.kdRatio > 1.2 then 0.8
    else if m.result == "Win" then 0.6
    else 0.4
  }

  /** Entry: a tenth of the entry frags. */
  function EntryScore(m: MatchSummary): (r: real)
    ensures r * 10.0 == EntryFrags(m) as real
  {
    EntryFrags(m) as real / 10.0
  }

  /** Support: assists plus flash assists, over 15. */
  function SupportScore(m: MatchSummary): (r: real)
    ensures r * 15.0 == (m.assists + FlashAssists(m)) as real
    ensures m.assists >= 0 ==> r >= 0.0
  {
    (m.assists as real + FlashAssists(m) as real) / 15.0
  }

  // =====================================================================
  // Score parsing and match detail (older revision)
  // =====================================================================

  /** extractPlayerTeamScore (older): the first part, untrimmed; a score without a dash is one part. */
  function ExtractPlayerTeamScore(score: string): (r: int)
    ensures MinInt64 <= r <= MaxInt64
    ensures '-' !in score ==> (r != 0 ==> Atoi(score) == Some(r))
    ensures r != 0 ==> Atoi(Split(score, '-')[0]) == Some(r)
    ensures Atoi(Split(score, '-')[0]).Some? ==> r == Atoi(Split(score, '-')[0]).value
  {
    SplitWhole(score);
    match Atoi(Split(score, '-')[0])
    case Some(v) => v
    case None => 0
  }

  /** extractEnemyTeamScore (older): the second part, untrimmed, when there are two parts. */
  function ExtractEnemyTeamScore(score: string): (r: int)
    ensures MinInt64 <= r <= MaxInt64
    ensures '-' !in score ==> r == 0
    ensures r != 0 ==> |Split(score, '-')| >= 2 && Atoi(Split(score, '-')[1]) == Some(r)
    ensures |Split(score, '-')| >= 2 && Atoi(Split(score, '-')[1]).Some? ==> r == Atoi(Split(score, '-')[1]).value
  {
    SplitWhole(score);
    var parts := Split(score, '-');
    if |parts| >= 2 then
      match Atoi(parts[1])
      case Some(v) => v
      case None => 0
    else 0
  }

  /** A score without a dash is a single part. */
  lemma SplitWhole(score: string)
    ensures '-' !in score ==> Split(score, '-') == [score]
  {
    if '-' !in score { SplitNoSeparator(score, '-'); }
  }

  /** The older extractors read "A-B" back for any non-negative scores, and read a lone "A" as the player's score. */
  lemma {:induction false} ExtractScoresRoundTrip(a: int, b: int)
    requires 0 <= a <= MaxInt64 && 0 <= b <= MaxInt64
    ensures ExtractPlayerTeamScore(Itoa(a) + "-" + Itoa(b)) == a
    ensures ExtractEnemyTeamScore(Itoa(a) + "-" + Itoa(b)) == b
    ensures ExtractPlayerTeamScore(Itoa(a)) == a
    ensures ExtractEnemyTeamScore(Itoa(a)) == 0
  {
    var sa, sb := Itoa(a), Itoa(b);
    assert '-' !in sa by { forall i | 0 <= i < |sa| ensures sa[i] != '-' { assert IsDigit(sa[i]); } }
    assert '-' !in sb by { forall i | 0 <= i < |sb| ensures sb[i] != '-' { assert IsDigit(sb[i]); } }
    SplitCons(sa, '-', sb);
    SplitNoSeparator(sb, '-');
    SplitNoSeparator(sa, '-');
    AtoiItoa(a);
    AtoiItoa(b);
  }

  /** Unlike the newer parser, the older one does not trim: "16 - 14" yields 0 and 0. */
  lemma NoTrimming()
    ensures ExtractPlayerTeamScore("16 - 14") == 0
    ensures ExtractEnemyTeamScore("16 - 14") == 0
  {
    SplitCons("16 ", '-', " 14");
    SplitNoSeparator(" 14", '-');
    assert "16 - 14" == "16 " + "-" + " 14";
    AtoiRejectsSpace("16 ", 2);
    AtoiRejectsSpace(" 14", 0);
  }

  datatype PlayerMatchStats = PlayerMatchStats(
    kills: int,
    deaths: int,
    assists: int,
    kdRatio: real,
    headshotsPercentage: real,
    adr: real,
    rating: real,
    firstKills: int,
    firstDeaths: int,
    clutchWins: int,
    entryFrags: int,
    flashAssists: int,
    utilityDamage: int
  )

  datatype TeamStats = TeamStats(
    playerTeamScore: int,
    enemyTeamScore: int,
    playerTeamID: string,
    enemyTeamID: string,
    playerTeamPlayers: seq<string>,
    enemyTeamPlayers: seq<string>
  )

  datatype PerformanceMetrics = PerformanceMetrics(
    consistencyScore: real,
    impactScore: real,
    clutchScore: real,
    entryScore: real,
    supportScore: real
  )

  datatype MatchDetail = MatchDetail(
    matchID: string,
    mapName: string,
    finishedAt: int,
    score: string,
    result: string,
    playerStats: PlayerMatchStats,
    teamStats: TeamStats,
    performance: PerformanceMetrics
  )

  /** The older detail of one match, with the fixed team ids "team1" and "team2". */
  function DetailOf(b: MatchSummary): MatchDetail
  {
    MatchDetail(b.matchID, b.mapName, b.finishedAt, b.score, b.result,
                PlayerMatchStats(b.kills, b.deaths, b.assists, b.kdRatio, b.headshotsPercentage,
                                 ADR(b), HLTVRating(b), FirstKills(b), FirstDeaths(b), ClutchWins(b),
                                 EntryFrags(b), FlashAssists(b), UtilityDamage(b)),
                TeamStats(ExtractPlayerTeamScore(b.score), ExtractEnemyTeamScore(b.score), "team1", "team2", [], []),
                PerformanceMetrics(ConsistencyScore(b), ImpactScore(b), ClutchScore(b), EntryScore(b), SupportScore(b)))
  }

  /** getDetailedMatchStats (older revision). */
  method GetDetailedMatchStats(matches: seq<MatchSummary>, matchID: string) returns (r: Result<MatchDetail>)
    ensures r.Err? <==> forall i :: 0 <= i < |matches| ==> matches[i].matchID != matchID
    ensures r.Err? ==> r.msg == "match not found"
    ensures r.Ok? ==>
      (exists i :: 0 <= i < |matches| && matches[i].matchID == matchID
        && (forall j :: 0 <= j < i ==> matches[j].matchID != matchID)
        && r.value == DetailOf(matches[i]))
  {
    var i := 0;
    while i < |matches| && matches[i].matchID != matchID
      invariant 0 <= i <= |matches|
      invariant forall j :: 0 <= j < i ==> matches[j].matchID != matchID
    {
      i := i + 1;
    }
    if i == |matches| {
      return Err("match not found");
    }
    r := Ok(DetailOf(matches[i]));
  }
}
