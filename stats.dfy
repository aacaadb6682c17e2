/**
 * The statistics engine of the terminal client (internal/ui/helpers.go):
 * folding a newest-first list of match summaries into a StatsSummary,
 * win/loss streaks, the comparison of two players, and the bounded list of
 * recently viewed players.
 *
 * Go map iteration order is unspecified; loops over map keys pick the next
 * key with `:|`, so every postcondition holds for every iteration order.
 */
module Stats {
  import opened Base
  import opened Entity

  /** Aggregated statistics over recent matches. */
  datatype StatsSummary = StatsSummary(
    totalMatches: int,
    wins: int,
    losses: int,
    winRate: real,
    totalKills: int,
    totalDeaths: int,
    totalAssists: int,
    averageKDRatio: real,
    totalKDA: real,
    averageHS: real,
    bestKDRatio: real,
    worstKDRatio: real,
    mostPlayedMap: string,
    mapStats: map<string, int>,
    kdChartData: seq<real>,
    currentStreak: int,       // > 0 for a win streak, < 0 for a loss streak
    streakType: string,       // "win", "loss" or ""
    longestWinStreak: int,
    longestLossStreak: int
  )

  /** Go's zero value of the summary. */
  const EmptySummary := StatsSummary(0, 0, 0, 0.0, 0, 0, 0, 0.0, 0.0, 0.0, 0.0, 0.0, "", map[], [], 0, "", 0, 0)

  /** Deltas between two players, player 1 minus player 2. */
  datatype ComparisonData = ComparisonData(
    kdRatioDiff: real,
    totalKDADiff: real,
    winRateDiff: real,
    averageHSDiff: real,
    totalKillsDiff: int,
    totalDeathsDiff: int,
    totalAssistsDiff: int,
    bestKDDiff: real,
    worstKDDiff: real,
    mostPlayedMap: string,
    commonMaps: seq<string>
  )

  const NoCommonMaps := "No common maps"

  // =====================================================================
  // Specification functions over the matches ms[a..b]
  // =====================================================================

  /** How many of ms[a..b] have the given result. */
  function Tally(ms: seq<MatchSummary>, a: nat, b: nat, result: string): nat
    requires a <= b <= |ms|
    decreases b
  {
    if b == a then 0 else Tally(ms, a, b - 1, result) + (if ms[b - 1].result == result then 1 else 0)
  }

  function SumKills(ms: seq<MatchSummary>, n: nat): int
    requires n <= |ms|
  {
    if n == 0 then 0 else SumKills(ms, n - 1) + ms[n - 1].kills
  }

  function SumDeaths(ms: seq<MatchSummary>, n: nat): int
    requires n <= |ms|
  {
    if n == 0 then 0 else SumDeaths(ms, n - 1) + ms[n - 1].deaths
  }

  function SumAssists(ms: seq<MatchSummary>, n: nat): int
    requires n <= |ms|
  {
    if n == 0 then 0 else SumAssists(ms, n - 1) + ms[n - 1].assists
  }

  /** A value if it is positive, else 0. */
  function Positive(x: real): real { if x > 0.0 then x else 0.0 }

  /** The sum of the positive K/D ratios among the first n matches. */
  function SumPositiveKD(ms: seq<MatchSummary>, n: nat): real
    requires n <= |ms|
  {
    if n == 0 then 0.0 else SumPositiveKD(ms, n - 1) + Positive(ms[n - 1].kdRatio)
  }

  /** The sum of the positive headshot percentages among the first n matches. */
  function SumPositiveHS(ms: seq<MatchSummary>, n: nat): real
    requires n <= |ms|
  {
    if n == 0 then 0.0 else SumPositiveHS(ms, n - 1) + Positive(ms[n - 1].headshotsPercentage)
  }

  /** How many of the first n matches were played on the map `name`. */
  function CountMap(ms: seq<MatchSummary>, n: nat, name: string): nat
    requires n <= |ms|
  {
    if n == 0 then 0 else CountMap(ms, n - 1, name) + (if ms[n - 1].mapName == name then 1 else 0)
  }

  /** Per-map match counts over the first n matches; matches without a map name are not counted. */
  function MapCounts(ms: seq<MatchSummary>, n: nat): map<string, int>
    requires n <= |ms|
  {
    if n == 0 then map[]
    else
      var m := MapCounts(ms, n - 1);
      var name := ms[n - 1].mapName;
      if name == "" then m else m[name := (if name in m then m[name] else 0) + 1]
  }

  /** The per-map table holds exactly the non-empty map names played, each with its number of matches. */
  lemma {:induction false} MapCountsMeaning(ms: seq<MatchSummary>, n: nat, name: string)
    requires n <= |ms|
    ensures name in MapCounts(ms, n) <==> name != "" && exists j :: 0 <= j < n && ms[j].mapName == name
    ensures name in MapCounts(ms, n) ==> MapCounts(ms, n)[name] == CountMap(ms, n, name) >= 1
    ensures name !in MapCounts(ms, n) ==> CountMap(ms, n, name) == 0 || name == ""
  {
    if n > 0 {
      MapCountsMeaning(ms, n - 1, name);
      if name in MapCounts(ms, n) && name !in MapCounts(ms, n - 1) {
        assert ms[n - 1].mapName == name;
      }
    }
  }

  /** `name` is what Go's "keep the first strictly larger count, starting from 0" scan over `counts` can return. */
  ghost predicate IsArgMax(counts: map<string, int>, name: string)
  {
    || (name == "" && forall k :: k in counts ==> counts[k] <= 0)
    || (name in counts && counts[name] > 0 && forall k :: k in counts ==> counts[k] <= counts[name])
  }

  // =====================================================================
  // Streaks
  // =====================================================================

  /** The index of the first match with the given result, or |ms|. */
  function FirstIndexOf(ms: seq<MatchSummary>, result: string): (r: nat)
    ensures r <= |ms|
    ensures forall j :: 0 <= j < r ==> ms[j].result != result
    ensures r < |ms| ==> ms[r].result == result
  {
    if ms == [] then 0
    else if ms[0].result == result then 0
    else 1 + FirstIndexOf(ms[1..], result)
  }

  /** The current streak: the wins before the first loss when the most recent decided
      match is a win, the losses (negated) before the first win when it is a loss, and
      (0, "") when no match is a "Win" or a "Loss". Other results are skipped. */
  function CurrentStreak(ms: seq<MatchSummary>): (int, string)
  {
    var w := FirstIndexOf(ms, "Win");
    var l := FirstIndexOf(ms, "Loss");
    if w < l then (Tally(ms, 0, l, "Win"), "win")
    else if l < w then (-(Tally(ms, 0, w, "Loss") as int), "loss")
    else (0, "")
  }

  /** No match in ms[a..b] has the result `other`. */
  ghost predicate RunFree(ms: seq<MatchSummary>, a: int, b: int, other: string)
    requires 0 <= a <= b <= |ms|
  {
    forall k :: a <= k < b ==> ms[k].result != other
  }

  /** `n` is the largest number of `kind` results in a stretch of ms[..upTo] without an `other` result. */
  ghost predicate IsLongestRunUpTo(ms: seq<MatchSummary>, upTo: nat, kind: string, other: string, n: int)
    requires upTo <= |ms|
  {
    && (exists a, b :: 0 <= a <= b <= upTo && RunFree(ms, a, b, other) && Tally(ms, a, b, kind) == n)
    && (forall a, b :: 0 <= a <= b <= upTo && RunFree(ms, a, b, other) ==> Tally(ms, a, b, kind) <= n)
  }

  ghost predicate IsLongestRun(ms: seq<MatchSummary>, kind: string, other: string, n: int)
  {
    IsLongestRunUpTo(ms, |ms|, kind, other, n)
  }

  lemma {:induction false} TallyMono(ms: seq<MatchSummary>, s: nat, a: nat, b: nat, kind: string)
    requires s <= a <= b <= |ms|
    ensures Tally(ms, a, b, kind) <= Tally(ms, s, b, kind)
    decreases b
  {
    if b > a { TallyMono(ms, s, a, b - 1, kind); }
  }

  lemma {:induction false} TallyNone(ms: seq<MatchSummary>, a: nat, b: nat, kind: string)
    requires a <= b <= |ms|
    requires forall k :: a <= k < b ==> ms[k].result != kind
    ensures Tally(ms, a, b, kind) == 0
    decreases b
  {
    if b > a { TallyNone(ms, a, b - 1, kind); }
  }

  lemma {:induction false} TallyBound(ms: seq<MatchSummary>, a: nat, b: nat, kind: string)
    requires a <= b <= |ms|
    ensures Tally(ms, a, b, kind) <= b - a
    decreases b
  {
    if b > a { TallyBound(ms, a, b - 1, kind); }
  }

  /** What the longest-streak loop knows after the first i matches, for one kind of result:
      `temp` counts the `kind` results since the last `other` (at s - 1), and `longest`
      is the best such count so far, reached on ms[wa..wb]. */
  ghost predicate Tracking(ms: seq<MatchSummary>, i: nat, kind: string, other: string,
                           temp: int, s: int, longest: int, wa: int, wb: int)
    requires i <= |ms|
  {
    && 0 <= s <= i && RunFree(ms, s, i, other) && (s > 0 ==> ms[s - 1].result == other)
    && temp == Tally(ms, s, i, kind)
    && 0 <= wa <= wb <= i && RunFree(ms, wa, wb, other) && Tally(ms, wa, wb, kind) == longest
    && (forall a, b :: 0 <= a <= b <= i && RunFree(ms, a, b, other) ==> Tally(ms, a, b, kind) <= longest)
  }

  lemma TrackingStep(ms: seq<MatchSummary>, i: nat, kind: string, other: string,
                     temp: int, s: int, longest: int, wa: int, wb: int)
    requires i < |ms| && kind != other
    requires Tracking(ms, i, kind, other, temp, s, longest, wa, wb)
    ensures ms[i].result == kind && temp + 1 > longest ==>
      Tracking(ms, i + 1, kind, other, temp + 1, s, temp + 1, s, i + 1)
    ensures ms[i].result == kind && temp + 1 <= longest ==>
      Tracking(ms, i + 1, kind, other, temp + 1, s, longest, wa, wb)
    ensures ms[i].result == other ==>
      Tracking(ms, i + 1, kind, other, 0, i + 1, longest, wa, wb)
    ensures ms[i].result != kind && ms[i].result != other ==>
      Tracking(ms, i + 1, kind, other, temp, s, longest, wa, wb)
  {
    var r := ms[i].result;
    if r == other {
      forall a, b | 0 <= a <= b <= i + 1 && RunFree(ms, a, b, other)
        ensures Tally(ms, a, b, kind) <= longest
      {
        RunFreeExcludes(ms, a, b, other, i);
      }
    } else {
      var t := Tally(ms, s, i + 1, kind);
      forall a, b | 0 <= a <= b <= i + 1 && RunFree(ms, a, b, other)
        ensures Tally(ms, a, b, kind) <= longest || Tally(ms, a, b, kind) <= t
      {
        if b == i + 1 {
          if s > 0 { RunFreeExcludes(ms, a, b, other, s - 1); }
          TallyMono(ms, s, a, b, kind);
        }
      }
    }
  }

  /** calculateStreaks: the current streak and the longest win and loss streaks. */
  method CalculateStreaks(ms: seq<MatchSummary>)
    returns (currentStreak: int, streakType: string, longestWinStreak: int, longestLossStreak: int)
    ensures (currentStreak, streakType) == CurrentStreak(ms)
    ensures IsLongestRun(ms, "Win", "Loss", longestWinStreak)
    ensures IsLongestRun(ms, "Loss", "Win", longestLossStreak)
  {
    if |ms| == 0 {
      assert Tracking(ms, 0, "Win", "Loss", 0, 0, 0, 0, 0);
      assert Tracking(ms, 0, "Loss", "Win", 0, 0, 0, 0, 0);
      return 0, "", 0, 0;
    }
    currentStreak, streakType := ScanCurrentStreak(ms);
    longestWinStreak, longestLossStreak := ScanLongestStreaks(ms);
  }

  /** The first loop of calculateStreaks: count from the most recent match until the
      first decided result of the other kind. */
  method ScanCurrentStreak(ms: seq<MatchSummary>) returns (currentStreak: int, streakType: string)
    ensures (currentStreak, streakType) == CurrentStreak(ms)
  {
    ghost var w := FirstIndexOf(ms, "Win");
    ghost var l := FirstIndexOf(ms, "Loss");
    currentStreak, streakType := 0, "";
    var i := 0;
    while i < |ms|
      invariant 0 <= i <= |ms|
      invariant streakType == "" ==> currentStreak == 0 && i <= w && i <= l
      invariant streakType == "win" ==> w < i <= l && currentStreak == Tally(ms, 0, i, "Win")
      invariant streakType == "loss" ==> l < i <= w && currentStreak == Tally(ms, 0, i, "Loss")
      invariant streakType == "" || streakType == "win" || streakType == "loss"
    {
      assert Tally(ms, 0, i + 1, "Win") == Tally(ms, 0, i, "Win") + (if ms[i].result == "Win" then 1 else 0);
      assert Tally(ms, 0, i + 1, "Loss") == Tally(ms, 0, i, "Loss") + (if ms[i].result == "Loss" then 1 else 0);
      if streakType == "" {
        TallyNone(ms, 0, i, "Win");
        TallyNone(ms, 0, i, "Loss");
      }
      if ms[i].result == "Win" {
        if streakType == "win" || streakType == "" {
          currentStreak := currentStreak + 1;
          streakType := "win";
        } else {
          break;
        }
      } else if ms[i].result == "Loss" {
        if streakType == "loss" || streakType == "" {
          currentStreak := currentStreak + 1;
          streakType := "loss";
        } else {
          break;
        }
      }
      i := i + 1;
    }
    if streakType == "loss" {
      currentStreak := -currentStreak;
    }
  }

  /** The second loop of calculateStreaks: the longest runs, in one forward pass. */
  method ScanLongestStreaks(ms: seq<MatchSummary>) returns (longestWinStreak: int, longestLossStreak: int)
    ensures IsLongestRun(ms, "Win", "Loss", longestWinStreak)
    ensures IsLongestRun(ms, "Loss", "Win", longestLossStreak)
  {
    var tempWin, tempLoss := 0, 0;
    longestWinStreak, longestLossStreak := 0, 0;
    ghost var sW, aW, bW, sL, aL, bL := 0, 0, 0, 0, 0, 0;
    var k := 0;
    while k < |ms|
      invariant 0 <= k <= |ms|
      invariant Tracking(ms, k, "Win", "Loss", tempWin, sW, longestWinStreak, aW, bW)
      invariant Tracking(ms, k, "Loss", "Win", tempLoss, sL, longestLossStreak, aL, bL)
    {
      TrackingStep(ms, k, "Win", "Loss", tempWin, sW, longestWinStreak, aW, bW);
      TrackingStep(ms, k, "Loss", "Win", tempLoss, sL, longestLossStreak, aL, bL);
      if ms[k].result == "Win" {
        tempWin := tempWin + 1;
        tempLoss := 0;
        sL := k + 1;
        if tempWin > longestWinStreak {
          longestWinStreak := tempWin;
          aW, bW := sW, k + 1;
        }
      } else if ms[k].result == "Loss" {
        tempLoss := tempLoss + 1;
        tempWin := 0;
        sW := k + 1;
        if tempLoss > longestLossStreak {
          longestLossStreak := tempLoss;
          aL, bL := sL, k + 1;
        }
      }
      k := k + 1;
    }
  }

  /** The current streak is never longer than the longest streak of its kind, nor than the match list. */
  lemma CurrentWithinLongest(ms: seq<MatchSummary>, longestWin: int, longestLoss: int)
    requires IsLongestRun(ms, "Win", "Loss", longestWin)
    requires IsLongestRun(ms, "Loss", "Win", longestLoss)
    ensures CurrentStreak(ms).0 > 0 ==> CurrentStreak(ms).1 == "win" && CurrentStreak(ms).0 <= longestWin
    ensures CurrentStreak(ms).0 < 0 ==> CurrentStreak(ms).1 == "loss" && -CurrentStreak(ms).0 <= longestLoss
    ensures -|ms| <= CurrentStreak(ms).0 <= |ms|
  {
    var w := FirstIndexOf(ms, "Win");
    var l := FirstIndexOf(ms, "Loss");
    assert RunFree(ms, 0, l, "Loss");
    assert RunFree(ms, 0, w, "Win");
    TallyBound(ms, 0, l, "Win");
    TallyBound(ms, 0, w, "Loss");
    if w < l {
      assert ms[w].result == "Win";
      assert Tally(ms, 0, w + 1, "Win") >= 1;
      TallyMono(ms, 0, 0, w + 1, "Win");
      assert Tally(ms, 0, w + 1, "Win") <= Tally(ms, 0, l, "Win") by { TallyPrefix(ms, w + 1, l, "Win"); }
    } else if l < w {
      assert ms[l].result == "Loss";
      assert Tally(ms, 0, l + 1, "Loss") >= 1;
      assert Tally(ms, 0, l + 1, "Loss") <= Tally(ms, 0, w, "Loss") by { TallyPrefix(ms, l + 1, w, "Loss"); }
    }
  }

  lemma {:induction false} TallyPrefix(ms: seq<MatchSummary>, b: nat, c: nat, kind: string)
    requires b <= c <= |ms|
    ensures Tally(ms, 0, b, kind) <= Tally(ms, 0, c, kind)
    decreases c
  {
    if c > b { TallyPrefix(ms, b, c - 1, kind); }
  }

  /** The longest streak of a kind is unique. */
  lemma LongestRunUnique(ms: seq<MatchSummary>, kind: string, other: string, n: int, n': int)
    requires IsLongestRun(ms, kind, other, n) && IsLongestRun(ms, kind, other, n')
    ensures n == n'
  {
  }

  /** [Win, Win, Loss, Loss, Loss, Win], newest first: current +2 ("win"), longest win 2, longest loss 3. */
  lemma MixedResultsExample(ms: seq<MatchSummary>)
    requires |ms| == 6
    requires ms[0].result == "Win" && ms[1].result == "Win" && ms[5].result == "Win"
    requires ms[2].result == "Loss" && ms[3].result == "Loss" && ms[4].result == "Loss"
    ensures CurrentStreak(ms) == (2, "win")
    ensures IsLongestRun(ms, "Win", "Loss", 2)
    ensures IsLongestRun(ms, "Loss", "Win", 3)
  {
    assert FirstIndexOf(ms, "Win") == 0;
    assert FirstIndexOf(ms, "Loss") == 2;
    assert Tally(ms, 0, 2, "Win") == 2;
    assert Tally(ms, 2, 5, "Loss") == 3;
    assert RunFree(ms, 0, 2, "Loss");
    assert RunFree(ms, 2, 5, "Win");
    forall a, b | 0 <= a <= b <= 6 && RunFree(ms, a, b, "Loss") ensures Tally(ms, a, b, "Win") <= 2 {
      RunFreeExcludes(ms, a, b, "Loss", 2);
      RunFreeExcludes(ms, a, b, "Loss", 3);
      RunFreeExcludes(ms, a, b, "Loss", 4);
      TallyBound(ms, a, b, "Win");
    }
    forall a, b | 0 <= a <= b <= 6 && RunFree(ms, a, b, "Win") ensures Tally(ms, a, b, "Loss") <= 3 {
      RunFreeExcludes(ms, a, b, "Win", 0);
      RunFreeExcludes(ms, a, b, "Win", 1);
      RunFreeExcludes(ms, a, b, "Win", 5);
      TallyBound(ms, a, b, "Loss");
    }
  }

  lemma RunFreeExcludes(ms: seq<MatchSummary>, a: nat, b: nat, other: string, k: nat)
    requires a <= b <= |ms| && k < |ms| && ms[k].result == other
    requires RunFree(ms, a, b, other)
    ensures k < a || b <= k
  {
  }

  // =====================================================================
  // calculateStats
  // =====================================================================

  /** The summary of a non-empty list, field by field. */
  ghost predicate Summarizes(ms: seq<MatchSummary>, st: StatsSummary)
    requires |ms| > 0
  {
    var n := |ms|;
    && st.totalMatches == n
    && Totals(ms, n, st.wins, st.losses, st.totalKills, st.totalDeaths, st.totalAssists)
    // averages divide by the number of matches, not by the number of positive values
    && st.averageKDRatio == SumPositiveKD(ms, n) / n as real
    && st.averageHS == SumPositiveHS(ms, n) / n as real
    && st.winRate == st.wins as real / n as real * 100.0
    && st.totalKDA == (if st.totalDeaths > 0 then st.totalKills as real / st.totalDeaths as real
                       else st.totalKills as real)
    // best = max(0, positive K/Ds); worst = min(100, positive K/Ds)
    && KDBounds(ms, n, st.bestKDRatio, st.worstKDRatio)
    && st.mapStats == MapCounts(ms, n)
    && IsArgMax(st.mapStats, st.mostPlayedMap)
    && |st.kdChartData| == n
    && (forall j :: 0 <= j < n ==> st.kdChartData[j] == Positive(ms[j].kdRatio))
    && (st.currentStreak, st.streakType) == CurrentStreak(ms)
    && IsLongestRun(ms, "Win", "Loss", st.longestWinStreak)
    && IsLongestRun(ms, "Loss", "Win", st.longestLossStreak)
  }

  /** The "keep the first strictly larger count" scan over a map's keys in Go's (unspecified) order. */
  method MostPlayed(counts: map<string, int>) returns (name: string)
    ensures IsArgMax(counts, name)
  {
    var maxCount := 0;
    name := "";
    var rest := counts.Keys;
    while rest != {}
      invariant rest <= counts.Keys
      invariant maxCount >= 0
      invariant (name == "" && maxCount == 0) || (name in counts && counts[name] == maxCount > 0)
      invariant forall k :: k in counts && k !in rest ==> counts[k] <= maxCount
      decreases rest
    {
      var k :| k in rest;
      if counts[k] > maxCount {
        maxCount := counts[k];
        name := k;
      }
      rest := rest - {k};
    }
  }

  /** The running totals of calculateStats after the first i matches. */
  ghost predicate Totals(ms: seq<MatchSummary>, i: nat, wins: int, losses: int, kills: int, deaths: int, assists: int)
    requires i <= |ms|
  {
    && wins == Tally(ms, 0, i, "Win") && losses == i - wins
    && kills == SumKills(ms, i) && deaths == SumDeaths(ms, i) && assists == SumAssists(ms, i)
  }

  lemma TotalsStep(ms: seq<MatchSummary>, i: nat, wins: int, losses: int, kills: int, deaths: int, assists: int)
    requires i < |ms| && Totals(ms, i, wins, losses, kills, deaths, assists)
    ensures var m := ms[i];
      Totals(ms, i + 1,
             if m.result == "Win" then wins + 1 else wins,
             if m.result == "Win" then losses else losses + 1,
             kills + m.kills, deaths + m.deaths, assists + m.assists)
  {
  }

  /** What the loop knows about best and worst K/D after i matches. */
  ghost predicate KDBounds(ms: seq<MatchSummary>, i: nat, best: real, worst: real)
    requires i <= |ms|
  {
    && best >= 0.0
    && (forall j :: 0 <= j < i && ms[j].kdRatio > 0.0 ==> ms[j].kdRatio <= best)
    && (best == 0.0 || exists j :: 0 <= j < i && ms[j].kdRatio == best)
    && worst <= 100.0
    && (forall j :: 0 <= j < i && ms[j].kdRatio > 0.0 ==> worst <= ms[j].kdRatio)
    && (worst == 100.0 || exists j :: 0 <= j < i && ms[j].kdRatio > 0.0 && ms[j].kdRatio == worst)
  }

  lemma KDBoundsStep(ms: seq<MatchSummary>, i: nat, best: real, worst: real)
    requires i < |ms| && KDBounds(ms, i, best, worst)
    ensures var kd := ms[i].kdRatio;
      KDBounds(ms, i + 1,
               if kd > 0.0 && kd > best then kd else best,
               if kd > 0.0 && kd < worst then kd else worst)
  {
  }

  /** calculateStats: the summary of a newest-first match list. */
  method CalculateStats(ms: seq<MatchSummary>) returns (st: StatsSummary)
    ensures |ms| == 0 ==> st == EmptySummary
    ensures |ms| > 0 ==> Summarizes(ms, st)
  {
    var n := |ms|;
    if n == 0 {
      return EmptySummary;
    }
    var wins, losses, kills, deaths, assists, totalKDRatio, totalHS, bestKD, worstKD, mapStats, chart := Accumulate(ms);
    var winRate := wins as real / n as real * 100.0;
    var totalKDA := if deaths > 0 then kills as real / deaths as real else kills as real;
    var mostPlayed := MostPlayed(mapStats);
    var current, streakType, longestWin, longestLoss := CalculateStreaks(ms);
    st := StatsSummary(n, wins, losses, winRate, kills, deaths, assists,
                       totalKDRatio / n as real, totalKDA, totalHS / n as real,
                       bestKD, worstKD, mostPlayed, mapStats, chart[..],
                       current, streakType, longestWin, longestLoss);
  }

  /** The main loop of calculateStats: one pass over the matches updating the counters,
      the positive-only sums, best and worst K/D, the per-map counts and the chart. */
  method Accumulate(ms: seq<MatchSummary>)
    returns (wins: int, losses: int, kills: int, deaths: int, assists: int,
             totalKDRatio: real, totalHS: real, bestKD: real, worstKD: real,
             mapStats: map<string, int>, chart: array<real>)
    ensures Totals(ms, |ms|, wins, losses, kills, deaths, assists)
    ensures totalKDRatio == SumPositiveKD(ms, |ms|) && totalHS == SumPositiveHS(ms, |ms|)
    ensures KDBounds(ms, |ms|, bestKD, worstKD)
    ensures mapStats == MapCounts(ms, |ms|)
    ensures chart.Length == |ms| && forall j :: 0 <= j < |ms| ==> chart[j] == Positive(ms[j].kdRatio)
  {
    var n := |ms|;
    chart := new real[n](_ => 0.0);
    wins, losses, kills, deaths, assists := 0, 0, 0, 0, 0;
    totalKDRatio, totalHS := 0.0, 0.0;
    bestKD, worstKD := 0.0, 100.0;
    mapStats := map[];
    var i := 0;
    while i < n
      invariant 0 <= i <= n
      invariant Totals(ms, i, wins, losses, kills, deaths, assists)
      invariant totalKDRatio == SumPositiveKD(ms, i) && totalHS == SumPositiveHS(ms, i)
      invariant forall j :: 0 <= j < i ==> chart[j] == Positive(ms[j].kdRatio)
      invariant forall j :: i <= j < n ==> chart[j] == 0.0
      invariant KDBounds(ms, i, bestKD, worstKD)
      invariant mapStats == MapCounts(ms, i)
    {
      var m := ms[i];
      TotalsStep(ms, i, wins, losses, kills, deaths, assists);
      KDBoundsStep(ms, i, bestKD, worstKD);
      kills := kills + m.kills;
      deaths := deaths + m.deaths;
      assists := assists + m.assists;
      if m.result == "Win" {
        wins := wins + 1;
      } else {
        losses := losses + 1;
      }
      if m.kdRatio > 0.0 {
        totalKDRatio := totalKDRatio + m.kdRatio;
        chart[i] := m.kdRatio;
        if m.kdRatio > bestKD {
          bestKD := m.kdRatio;
        }
        if m.kdRatio < worstKD {
          worstKD := m.kdRatio;
        }
      }
      if m.headshotsPercentage > 0.0 {
        totalHS := totalHS + m.headshotsPercentage;
      }
      if m.mapName != "" {
        mapStats := mapStats[m.mapName := (if m.mapName in mapStats then mapStats[m.mapName] else 0) + 1];
      }
      i := i + 1;
    }
  }

  /** Every counted map in a summary has a positive count, so a non-empty table yields a
      most-played map that is one of its keys with the largest count. */
  lemma MostPlayedIsAMaximalMap(ms: seq<MatchSummary>, st: StatsSummary)
    requires |ms| > 0 && Summarizes(ms, st)
    ensures st.mapStats == map[] <==> st.mostPlayedMap == ""
    ensures st.mapStats != map[] ==>
      st.mostPlayedMap in st.mapStats && forall k :: k in st.mapStats ==> st.mapStats[k] <= st.mapStats[st.mostPlayedMap]
  {
    forall k | k in st.mapStats ensures st.mapStats[k] >= 1 && k != "" {
      MapCountsMeaning(ms, |ms|, k);
    }
    if st.mapStats != map[] {
      var k :| k in st.mapStats;
      assert st.mapStats[k] >= 1;
    }
  }

  /** The worked example: K/D ratios 1.5, 1.2, 0.8, 0.9, 1.1 average to 1.1 and
      headshot percentages 70, 60, 50, 55, 65 average to 60. */
  lemma AverageExample(ms: seq<MatchSummary>)
    requires |ms| == 5
    requires ms[0].kdRatio == 1.5 && ms[1].kdRatio == 1.2 && ms[2].kdRatio == 0.8 && ms[3].kdRatio == 0.9 && ms[4].kdRatio == 1.1
    requires ms[0].headshotsPercentage == 70.0 && ms[1].headshotsPercentage == 60.0 && ms[2].headshotsPercentage == 50.0
    requires ms[3].headshotsPercentage == 55.0 && ms[4].headshotsPercentage == 65.0
    ensures SumPositiveKD(ms, 5) / 5.0 == 1.1
    ensures SumPositiveHS(ms, 5) / 5.0 == 60.0
  {
    assert SumPositiveKD(ms, 1) == 1.5;
    assert SumPositiveKD(ms, 2) == 2.7;
    assert SumPositiveKD(ms, 3) == 3.5;
    assert SumPositiveKD(ms, 4) == 4.4;
    assert SumPositiveHS(ms, 1) == 70.0;
    assert SumPositiveHS(ms, 2) == 130.0;
    assert SumPositiveHS(ms, 3) == 180.0;
    assert SumPositiveHS(ms, 4) == 235.0;
  }

  // =====================================================================
  // Comparison of two players
  // =====================================================================

  /** `common` lists, once each, the maps both players have played. */
  ghost predicate ListsCommonMaps(s1: StatsSummary, s2: StatsSummary, common: seq<string>)
  {
    && (forall x :: x in common <==> x in s1.mapStats && x in s2.mapStats)
    && (forall i, j :: 0 <= i < j < |common| ==> common[i] != common[j])
  }

  /** The combined count of every common map. */
  function CombinedCounts(s1: StatsSummary, s2: StatsSummary): map<string, int>
  {
    map k | k in s1.mapStats.Keys * s2.mapStats.Keys :: s1.mapStats[k] + s2.mapStats[k]
  }

  /** findCommonMaps: player 1's map names that player 2 has also played. */
  method FindCommonMaps(s1: StatsSummary, s2: StatsSummary) returns (common: seq<string>)
    ensures ListsCommonMaps(s1, s2, common)
  {
    common := [];
    var rest := s1.mapStats.Keys;
    while rest != {}
      invariant rest <= s1.mapStats.Keys
      invariant forall x :: x in common <==> x in s1.mapStats && x !in rest && x in s2.mapStats
      invariant forall i, j :: 0 <= i < j < |common| ==> common[i] != common[j]
      decreases rest
    {
      var name :| name in rest;
      if name in s2.mapStats {
        common := common + [name];
      }
      rest := rest - {name};
    }
  }

  /** findMostPlayedMap: the common map with the largest combined count, or "No common maps". */
  method FindMostPlayedMap(s1: StatsSummary, s2: StatsSummary) returns (name: string)
    ensures s1.mapStats.Keys * s2.mapStats.Keys == {} ==> name == NoCommonMaps
    ensures s1.mapStats.Keys * s2.mapStats.Keys != {} ==> IsArgMax(CombinedCounts(s1, s2), name)
  {
    var common := FindCommonMaps(s1, s2);
    if |common| == 0 {
      assert s1.mapStats.Keys * s2.mapStats.Keys == {};
      return NoCommonMaps;
    }
    var combined := CombinedCounts(s1, s2);
    var maxCount := 0;
    name := "";
    var i := 0;
    while i < |common|
      invariant 0 <= i <= |common|
      invariant maxCount >= 0
      invariant (name == "" && maxCount == 0) || (name in combined && combined[name] == maxCount > 0)
      invariant forall j :: 0 <= j < i ==> combined[common[j]] <= maxCount
    {
      var total := s1.mapStats[common[i]] + s2.mapStats[common[i]];
      if total > maxCount {
        maxCount := total;
        name := common[i];
      }
      i := i + 1;
    }
    assert common[0] in s1.mapStats.Keys * s2.mapStats.Keys;
    forall k | k in combined ensures combined[k] <= maxCount {
      var j :| 0 <= j < |common| && common[j] == k;
    }
  }

  /** What calculateComparisonData returns for players 1 and 2. */
  ghost predicate IsComparison(p1: StatsSummary, p2: StatsSummary, c: ComparisonData)
  {
    && c.kdRatioDiff == p1.averageKDRatio - p2.averageKDRatio
    && c.totalKDADiff == p1.totalKDA - p2.totalKDA
    && c.winRateDiff == p1.winRate - p2.winRate
    && c.averageHSDiff == p1.averageHS - p2.averageHS
    && c.totalKillsDiff == p1.totalKills - p2.totalKills
    && c.totalDeathsDiff == p1.totalDeaths - p2.totalDeaths
    && c.totalAssistsDiff == p1.totalAssists - p2.totalAssists
    && c.bestKDDiff == p1.bestKDRatio - p2.bestKDRatio
    && c.worstKDDiff == p1.worstKDRatio - p2.worstKDRatio
    && (p1.mapStats.Keys * p2.mapStats.Keys == {} ==> c.mostPlayedMap == NoCommonMaps)
    && (p1.mapStats.Keys * p2.mapStats.Keys != {} ==> IsArgMax(CombinedCounts(p1, p2), c.mostPlayedMap))
    && ListsCommonMaps(p1, p2, c.commonMaps)
  }

  /** calculateComparisonData: per-field deltas, player 1 minus player 2, and the common maps. */
  method CalculateComparisonData(p1: StatsSummary, p2: StatsSummary) returns (c: ComparisonData)
    ensures IsComparison(p1, p2, c)
  {
    var most := FindMostPlayedMap(p1, p2);
    var common := FindCommonMaps(p1, p2);
    c := ComparisonData(
      p1.averageKDRatio - p2.averageKDRatio,
      p1.totalKDA - p2.totalKDA,
      p1.winRate - p2.winRate,
      p1.averageHS - p2.averageHS,
      p1.totalKills - p2.totalKills,
      p1.totalDeaths - p2.totalDeaths,
      p1.totalAssists - p2.totalAssists,
      p1.bestKDRatio - p2.bestKDRatio,
      p1.worstKDRatio - p2.worstKDRatio,
      most,
      common);
  }

  /** Swapping the players negates every numeric delta and keeps the same common maps,
      and both directions agree on the largest combined count. */
  lemma ComparisonSwap(p1: StatsSummary, p2: StatsSummary, c: ComparisonData, d: ComparisonData)
    requires IsComparison(p1, p2, c) && IsComparison(p2, p1, d)
    ensures c.kdRatioDiff == -d.kdRatioDiff && c.totalKDADiff == -d.totalKDADiff
    ensures c.winRateDiff == -d.winRateDiff && c.averageHSDiff == -d.averageHSDiff
    ensures c.totalKillsDiff == -d.totalKillsDiff && c.totalDeathsDiff == -d.totalDeathsDiff
    ensures c.totalAssistsDiff == -d.totalAssistsDiff
    ensures c.bestKDDiff == -d.bestKDDiff && c.worstKDDiff == -d.worstKDDiff
    ensures forall x :: x in c.commonMaps <==> x in d.commonMaps
    ensures |c.commonMaps| == |d.commonMaps|
    ensures c.mostPlayedMap in CombinedCounts(p1, p2) && d.mostPlayedMap in CombinedCounts(p2, p1) ==>
      CombinedCounts(p1, p2)[c.mostPlayedMap] == CombinedCounts(p2, p1)[d.mostPlayedMap]
  {
    DistinctSameElements(c.commonMaps, d.commonMaps);
    assert CombinedCounts(p1, p2) == CombinedCounts(p2, p1);
  }

  lemma {:induction false} DistinctSameElements(a: seq<string>, b: seq<string>)
    requires forall i, j :: 0 <= i < j < |a| ==> a[i] != a[j]
    requires forall i, j :: 0 <= i < j < |b| ==> b[i] != b[j]
    requires forall x :: x in a <==> x in b
    ensures |a| == |b|
  {
    var sa := set x | x in a;
    var sb := set x | x in b;
    assert sa == sb;
    DistinctCard(a);
    DistinctCard(b);
  }

  lemma {:induction false} DistinctCard(a: seq<string>)
    requires forall i, j :: 0 <= i < j < |a| ==> a[i] != a[j]
    ensures |set x | x in a| == |a|
  {
    if a != [] {
      DistinctCard(a[1..]);
      assert (set x | x in a) == {a[0]} + (set x | x in a[1..]);
      assert a[0] !in a[1..];
    }
  }

  // =====================================================================
  // Recently viewed players
  // =====================================================================

  const MaxRecentPlayers := 5

  /** The list with the first occurrence of `x` removed. */
  function RemoveFirst(s: seq<string>, x: string): seq<string>
  {
    if s == [] then [] else if s[0] == x then s[1..] else [s[0]] + RemoveFirst(s[1..], x)
  }

  /** The list with every occurrence of `x` removed. */
  function Without(s: seq<string>, x: string): seq<string>
  {
    if s == [] then [] else if s[0] == x then Without(s[1..], x) else [s[0]] + Without(s[1..], x)
  }

  predicate Distinct(s: seq<string>) {
    forall i, j :: 0 <= i < j < |s| ==> s[i] != s[j]
  }

  /** The recent-players list after viewing `nickname`. */
  function WithRecent(recent: seq<string>, nickname: string): seq<string>
  {
    var l := [nickname] + RemoveFirst(recent, nickname);
    if |l| > MaxRecentPlayers then l[..MaxRecentPlayers] else l
  }

  /** addToRecentPlayers: drop the nickname where it was, put it first, keep at most five names. */
  method AddToRecentPlayers(recent: seq<string>, nickname: string) returns (r: seq<string>)
    ensures r == WithRecent(recent, nickname)
  {
    r := recent;
    var i := 0;
    while i < |r|
      invariant 0 <= i <= |r|
      invariant r == recent
      invariant RemoveFirst(recent, nickname) == recent[..i] + RemoveFirst(recent[i..], nickname)
    {
      if r[i] == nickname {
        RemoveFirstHit(recent, nickname, i);
        r := r[..i] + r[i + 1..];
        break;
      }
      RemoveFirstAdvance(recent, nickname, i);
      i := i + 1;
    }
    if r == recent {
      assert i == |recent| && recent[..i] == recent;
    }
    r := [nickname] + r;
    if |r| > MaxRecentPlayers {
      r := r[..MaxRecentPlayers];
    }
  }

  /** The scan passes a name that is not the one removed. */
  lemma RemoveFirstAdvance(recent: seq<string>, nickname: string, i: nat)
    requires i < |recent| && recent[i] != nickname
    requires RemoveFirst(recent, nickname) == recent[..i] + RemoveFirst(recent[i..], nickname)
    ensures RemoveFirst(recent, nickname) == recent[..i + 1] + RemoveFirst(recent[i + 1..], nickname)
  {
    assert recent[i..][1..] == recent[i + 1..];
    assert recent[..i + 1] == recent[..i] + [recent[i]];
  }

  /** The scan finds the name and removes it there. */
  lemma RemoveFirstHit(recent: seq<string>, nickname: string, i: nat)
    requires i < |recent| && recent[i] == nickname
    requires RemoveFirst(recent, nickname) == recent[..i] + RemoveFirst(recent[i..], nickname)
    ensures RemoveFirst(recent, nickname) == recent[..i] + recent[i + 1..]
  {
    assert recent[i..][1..] == recent[i + 1..];
  }

  lemma {:induction false} RemoveFirstFacts(s: seq<string>, x: string)
    ensures x in s ==> |RemoveFirst(s, x)| == |s| - 1
    ensures x !in s ==> RemoveFirst(s, x) == s
    ensures forall y :: y in RemoveFirst(s, x) ==> y in s
    ensures Distinct(s) ==> RemoveFirst(s, x) == Without(s, x) && Distinct(RemoveFirst(s, x)) && x !in RemoveFirst(s, x)
  {
    if s != [] {
      RemoveFirstFacts(s[1..], x);
      WithoutFacts(s[1..], x);
      if Distinct(s) {
        assert Distinct(s[1..]);
        if s[0] == x {
          assert x !in s[1..];
          WithoutAbsent(s[1..], x);
        } else {
          assert s[0] !in s[1..];
          var t := [s[0]] + RemoveFirst(s[1..], x);
          forall i, j | 0 <= i < j < |t| ensures t[i] != t[j] {
            if i == 0 { assert t[j] in RemoveFirst(s[1..], x); }
          }
        }
      }
    }
  }

  lemma {:induction false} WithoutFacts(s: seq<string>, x: string)
    ensures forall y :: y in Without(s, x) ==> y in s && y != x
  {
    if s != [] { WithoutFacts(s[1..], x); }
  }

  lemma {:induction false} WithoutAbsent(s: seq<string>, x: string)
    requires x !in s
    ensures Without(s, x) == s
  {
    if s != [] { WithoutAbsent(s[1..], x); assert s == [s[0]] + s[1..]; }
  }

  /** After viewing a player: the nickname is first, there are at most five names, one
      more than before unless the nickname was already there or the list was full; on a
      list without duplicates the nickname appears once and the other names keep their
      relative order. */
  lemma RecentPlayersFacts(recent: seq<string>, nickname: string)
    ensures var r := WithRecent(recent, nickname);
      && |r| >= 1 && r[0] == nickname && |r| <= MaxRecentPlayers
      && |r| == Min(MaxRecentPlayers, if nickname in recent then |recent| else |recent| + 1)
      && (forall y :: y in r ==> y == nickname || y in recent)
    ensures Distinct(recent) ==>
      var r := WithRecent(recent, nickname);
      && Distinct(r)
      && r[1..] == (if |Without(recent, nickname)| > MaxRecentPlayers - 1
                    then Without(recent, nickname)[..MaxRecentPlayers - 1]
                    else Without(recent, nickname))
  {
    RecentPlayersShape(recent, nickname);
    if Distinct(recent) {
      RecentPlayersDistinct(recent, nickname);
    }
  }

  lemma RecentPlayersShape(recent: seq<string>, nickname: string)
    ensures var r := WithRecent(recent, nickname);
      && |r| >= 1 && r[0] == nickname && |r| <= MaxRecentPlayers
      && |r| == Min(MaxRecentPlayers, if nickname in recent then |recent| else |recent| + 1)
      && (forall y :: y in r ==> y == nickname || y in recent)
  {
    RemoveFirstFacts(recent, nickname);
    var l := [nickname] + RemoveFirst(recent, nickname);
    var r := WithRecent(recent, nickname);
    assert forall y :: y in r ==> y in l;
  }

  lemma RecentPlayersDistinct(recent: seq<string>, nickname: string)
    requires Distinct(recent)
    ensures var r := WithRecent(recent, nickname);
      && Distinct(r)
      && r[1..] == (if |Without(recent, nickname)| > MaxRecentPlayers - 1
                    then Without(recent, nickname)[..MaxRecentPlayers - 1]
                    else Without(recent, nickname))
  {
    RemoveFirstFacts(recent, nickname);
    var l := [nickname] + RemoveFirst(recent, nickname);
    forall i, j | 0 <= i < j < |l| ensures l[i] != l[j] {
      if i == 0 { assert l[j] in RemoveFirst(recent, nickname); }
    }
    assert l[1..] == RemoveFirst(recent, nickname);
  }
}
