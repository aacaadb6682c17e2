/**
 * The key-driven screen state machine of the terminal client
 * (internal/ui/updates.go). Every handler maps the current model and the
 * name of the pressed key to a new model and a command tag; the tag stands
 * for the asynchronous load the real program would start.
 */
module Screens {
  import opened Base
  import opened GoStrings
  import opened Entity
  import opened Stats
  import opened Estimators

  datatype AppState =
    | StateSearch
    | StateProfile
    | StateMatches
    | StateStats
    | StateMatchDetail
    | StatePlayerSwitch
    | StateComparisonInput
    | StateComparison
    | StateLoading
    | StateError

  /** Which command a handler returns: nothing, quit, or one of the asynchronous loads. */
  datatype Cmd =
    | NoCmd
    | Quit
    | LoadPlayerProfile(nickname: string)
    | LoadRecentMatches
    | LoadStatistics
    | LoadMatchDetail(matchID: string)
    | LoadPlayerComparison(friendNickname: string)

  datatype PlayerComparison = PlayerComparison(
    player1Nickname: string,
    player2Nickname: string,
    player1Stats: StatsSummary,
    player2Stats: StatsSummary,
    comparisonData: ComparisonData
  )

  /** The part of the application model the key handlers read or write. */
  datatype AppModel = AppModel(
    state: AppState,
    searchInput: string,
    player: Option<PlayerProfile>,
    matches: seq<MatchSummary>,
    selectedMatchIndex: nat,
    playerSwitchInput: string,
    recentPlayers: seq<string>,
    comparison: Option<PlayerComparison>,
    comparisonInput: string,
    error: string,
    loading: bool
  )

  // =====================================================================
  // Keys and text entry
  // =====================================================================

  predicate IsQuitKey(key: string) { key == "ctrl+c" || key == "q" }

  /** A key whose name is one byte long, i.e. a single ASCII character. */
  predicate IsTypedKey(key: string) { |key| == 1 && key[0] < '\U{80}' }

  /** The buffer after "backspace": the last character dropped, if any. */
  function DropLast(s: string): (r: string)
    ensures s == [] ==> r == []
    ensures s != [] ==> r + [s[|s| - 1]] == s
  {
    if |s| > 0 then s[..|s| - 1] else s
  }

  /** The text-entry rule shared by every input screen: what a key that neither quits,
      submits nor leaves the screen does to the buffer. */
  ghost predicate EditsBuffer(key: string, before: string, after: string)
  {
    && (key == "backspace" ==> after == DropLast(before))
    && (IsTypedKey(key) && !IsQuitKey(key) ==> after == before + key)
    && (key != "backspace" && !IsTypedKey(key) ==> after == before)
  }

  /** The key handling of a text-entry screen, shared by the search and comparison-input screens. */
  function EditBuffer(buffer: string, key: string): (r: string)
    requires !IsQuitKey(key)
    ensures EditsBuffer(key, buffer, r)
    ensures |r| <= |buffer| + 1
  {
    if key == "backspace" then DropLast(buffer)
    else if IsTypedKey(key) then buffer + key
    else buffer
  }

  // =====================================================================
  // Handlers
  // =====================================================================

  /** updateSearch */
  function UpdateSearch(m: AppModel, key: string): (r: (AppModel, Cmd))
    ensures IsQuitKey(key) ==> r == (m, Quit)
    ensures key == "enter" && !AllSpace(m.searchInput) ==>
      r == (m.(loading := true, state := StateLoading), LoadPlayerProfile(m.searchInput))
    ensures key == "enter" && AllSpace(m.searchInput) ==> r == (m, NoCmd)
    ensures key != "enter" && !IsQuitKey(key) ==>
      r.1 == NoCmd && r.0 == m.(searchInput := r.0.searchInput) && EditsBuffer(key, m.searchInput, r.0.searchInput)
  {
    TrimSpaceEmptyIff(m.searchInput);
    if IsQuitKey(key) then (m, Quit)
    else if key == "enter" then
      if TrimSpace(m.searchInput) != "" then
        (m.(loading := true, state := StateLoading), LoadPlayerProfile(m.searchInput))
      else (m, NoCmd)
    else (m.(searchInput := EditBuffer(m.searchInput, key)), NoCmd)
  }

  /** updateProfile */
  function UpdateProfile(m: AppModel, key: string): (r: (AppModel, Cmd))
    ensures IsQuitKey(key) ==> r == (m, Quit)
    ensures key == "esc" ==> r == (m.(state := StateSearch, searchInput := ""), NoCmd)
    ensures key == "m" ==> r == (m.(loading := true, state := StateLoading), LoadRecentMatches)
    ensures key == "s" ==> r == (m.(loading := true, state := StateLoading), LoadStatistics)
    ensures key == "c" ==> r == (m.(state := StateComparisonInput, comparisonInput := ""), NoCmd)
    ensures key == "p" ==> r == (m.(state := StatePlayerSwitch, playerSwitchInput := ""), NoCmd)
    ensures !IsQuitKey(key) && key !in {"esc", "m", "s", "c", "p"} ==> r == (m, NoCmd)
  {
    if IsQuitKey(key) then (m, Quit)
    else if key == "esc" then (m.(state := StateSearch, searchInput := ""), NoCmd)
    else if key == "m" then (m.(loading := true, state := StateLoading), LoadRecentMatches)
    else if key == "s" then (m.(loading := true, state := StateLoading), LoadStatistics)
    else if key == "c" then (m.(state := StateComparisonInput, comparisonInput := ""), NoCmd)
    else if key == "p" then (m.(state := StatePlayerSwitch, playerSwitchInput := ""), NoCmd)
    else (m, NoCmd)
  }

  /** The recent-players list after switching away from the current player, if any. */
  function RecentAfterSwitch(m: AppModel): seq<string>
  {
    if m.player.Some? then WithRecent(m.recentPlayers, m.player.value.nickname) else m.recentPlayers
  }

  /** updatePlayerSwitch */
  function UpdatePlayerSwitch(m: AppModel, key: string): (r: (AppModel, Cmd))
    ensures IsQuitKey(key) ==> r == (m, Quit)
    ensures key == "esc" ==> r == (m.(state := StateProfile, playerSwitchInput := ""), NoCmd)
    ensures key == "enter" && m.playerSwitchInput == "" ==> r == (m, NoCmd)
    ensures key == "enter" && m.playerSwitchInput != "" ==>
      && r.1 == LoadPlayerProfile(m.playerSwitchInput)
      && r.0 == m.(searchInput := m.playerSwitchInput, state := StateLoading, loading := true,
                   recentPlayers := r.0.recentPlayers)
      && (m.player.None? ==> r.0.recentPlayers == m.recentPlayers)
      && (m.player.Some? ==> r.0.recentPlayers == WithRecent(m.recentPlayers, m.player.value.nickname))
    ensures key !in {"esc", "enter"} && !IsQuitKey(key) ==>
      r.1 == NoCmd && r.0 == m.(playerSwitchInput := r.0.playerSwitchInput)
      && EditsBuffer(key, m.playerSwitchInput, r.0.playerSwitchInput)
  {
    if IsQuitKey(key) then (m, Quit)
    else if key == "esc" then (m.(state := StateProfile, playerSwitchInput := ""), NoCmd)
    else if key == "enter" then
      if m.playerSwitchInput != "" then
        (m.(recentPlayers := RecentAfterSwitch(m), searchInput := m.playerSwitchInput,
            state := StateLoading, loading := true),
         LoadPlayerProfile(m.playerSwitchInput))
      else (m, NoCmd)
    else (m.(playerSwitchInput := EditBuffer(m.playerSwitchInput, key)), NoCmd)
  }

  /** updateMatches */
  function UpdateMatches(m: AppModel, key: string): (r: (AppModel, Cmd))
    ensures IsQuitKey(key) ==> r == (m, Quit)
    ensures key == "esc" ==> r == (m.(state := StateProfile), NoCmd)
    ensures key in {"up", "k"} ==>
      r.1 == NoCmd && r.0 == m.(selectedMatchIndex := r.0.selectedMatchIndex)
      && (m.selectedMatchIndex > 0 ==> r.0.selectedMatchIndex + 1 == m.selectedMatchIndex)
      && (m.selectedMatchIndex == 0 ==> r.0.selectedMatchIndex == 0)
    ensures key in {"down", "j"} ==>
      r.1 == NoCmd && r.0 == m.(selectedMatchIndex := r.0.selectedMatchIndex)
      && (m.selectedMatchIndex + 1 < |m.matches| ==> r.0.selectedMatchIndex == m.selectedMatchIndex + 1)
      && (m.selectedMatchIndex + 1 >= |m.matches| ==> r.0.selectedMatchIndex == m.selectedMatchIndex)
    ensures key in {"enter", "d"} ==>
      if m.selectedMatchIndex < |m.matches| then
        r == (m.(loading := true, state := StateLoading), LoadMatchDetail(m.matches[m.selectedMatchIndex].matchID))
      else r == (m, NoCmd)
    ensures !IsQuitKey(key) && key !in {"esc", "up", "k", "down", "j", "enter", "d"} ==> r == (m, NoCmd)
  {
    if IsQuitKey(key) then (m, Quit)
    else if key == "esc" then (m.(state := StateProfile), NoCmd)
    else if key == "up" || key == "k" then
      if m.selectedMatchIndex > 0 then (m.(selectedMatchIndex := m.selectedMatchIndex - 1), NoCmd)
      else (m, NoCmd)
    else if key == "down" || key == "j" then
      if m.selectedMatchIndex < |m.matches| - 1 then (m.(selectedMatchIndex := m.selectedMatchIndex + 1), NoCmd)
      else (m, NoCmd)
    else if key == "enter" || key == "d" then
      if |m.matches| > 0 && m.selectedMatchIndex < |m.matches| then
        (m.(loading := true, state := StateLoading), LoadMatchDetail(m.matches[m.selectedMatchIndex].matchID))
      else (m, NoCmd)
    else (m, NoCmd)
  }

  /** updateStats and updateMatchDetail: a read-only screen that only quits or goes back to `back`. */
  function UpdateReadOnly(m: AppModel, key: string, back: AppState): (r: (AppModel, Cmd))
    ensures IsQuitKey(key) ==> r == (m, Quit)
    ensures key == "esc" ==> r == (m.(state := back), NoCmd)
    ensures !IsQuitKey(key) && key != "esc" ==> r == (m, NoCmd)
  {
    if IsQuitKey(key) then (m, Quit)
    else if key == "esc" then (m.(state := back), NoCmd)
    else (m, NoCmd)
  }

  /** updateStats */
  function UpdateStats(m: AppModel, key: string): (r: (AppModel, Cmd))
    ensures IsQuitKey(key) ==> r == (m, Quit)
    ensures key == "esc" ==> r == (m.(state := StateProfile), NoCmd)
    ensures !IsQuitKey(key) && key != "esc" ==> r == (m, NoCmd)
  {
    UpdateReadOnly(m, key, StateProfile)
  }

  /** updateMatchDetail */
  function UpdateMatchDetail(m: AppModel, key: string): (r: (AppModel, Cmd))
    ensures IsQuitKey(key) ==> r == (m, Quit)
    ensures key == "esc" ==> r == (m.(state := StateMatches), NoCmd)
    ensures !IsQuitKey(key) && key != "esc" ==> r == (m, NoCmd)
  {
    UpdateReadOnly(m, key, StateMatches)
  }

  /** updateError */
  function UpdateError(m: AppModel, key: string): (r: (AppModel, Cmd))
    ensures IsQuitKey(key) ==> r == (m, Quit)
    ensures key == "esc" || key == "enter" ==> r == (m.(state := StateSearch, error := ""), NoCmd)
    ensures !IsQuitKey(key) && key != "esc" && key != "enter" ==> r == (m, NoCmd)
  {
    if IsQuitKey(key) then (m, Quit)
    else if key == "esc" || key == "enter" then (m.(state := StateSearch, error := ""), NoCmd)
    else (m, NoCmd)
  }

  /** updateComparisonInput */
  function UpdateComparisonInput(m: AppModel, key: string): (r: (AppModel, Cmd))
    ensures IsQuitKey(key) ==> r == (m, Quit)
    ensures key == "esc" ==> r == (m.(state := StateProfile, comparisonInput := ""), NoCmd)
    ensures key == "enter" && !AllSpace(m.comparisonInput) ==>
      r == (m.(loading := true, state := StateLoading), LoadPlayerComparison(m.comparisonInput))
    ensures key == "enter" && AllSpace(m.comparisonInput) ==> r == (m, NoCmd)
    ensures key !in {"esc", "enter"} && !IsQuitKey(key) ==>
      r.1 == NoCmd && r.0 == m.(comparisonInput := r.0.comparisonInput)
      && EditsBuffer(key, m.comparisonInput, r.0.comparisonInput)
  {
    TrimSpaceEmptyIff(m.comparisonInput);
    if IsQuitKey(key) then (m, Quit)
    else if key == "esc" then (m.(state := StateProfile, comparisonInput := ""), NoCmd)
    else if key == "enter" then
      if TrimSpace(m.comparisonInput) != "" then
        (m.(loading := true, state := StateLoading), LoadPlayerComparison(m.comparisonInput))
      else (m, NoCmd)
    else (m.(comparisonInput := EditBuffer(m.comparisonInput, key)), NoCmd)
  }

  /** updateComparison */
  function UpdateComparison(m: AppModel, key: string): (r: (AppModel, Cmd))
    ensures IsQuitKey(key) ==> r == (m, Quit)
    ensures key == "esc" ==> r == (m.(state := StateProfile, comparison := None), NoCmd)
    ensures !IsQuitKey(key) && key != "esc" ==> r == (m, NoCmd)
  {
    if IsQuitKey(key) then (m, Quit)
    else if key == "esc" then (m.(state := StateProfile, comparison := None), NoCmd)
    else (m, NoCmd)
  }

  /** Routes a key press to the handler of the current screen; the loading screen ignores keys. */
  function HandleKey(m: AppModel, key: string): (r: (AppModel, Cmd))
    ensures m.state == StateLoading ==> r == (m, NoCmd)
    ensures r.1 == Quit ==> r.0 == m
  {
    match m.state
    case StateSearch => UpdateSearch(m, key)
    case StateProfile => UpdateProfile(m, key)
    case StateMatches => UpdateMatches(m, key)
    case StateStats => UpdateStats(m, key)
    case StateMatchDetail => UpdateMatchDetail(m, key)
    case StatePlayerSwitch => UpdatePlayerSwitch(m, key)
    case StateComparisonInput => UpdateComparisonInput(m, key)
    case StateComparison => UpdateComparison(m, key)
    case StateError => UpdateError(m, key)
    case StateLoading => (m, NoCmd)
  }

  // =====================================================================
  // Properties of the whole state machine
  // =====================================================================

  /** The selection lies in [0, max(0, len - 1)], and the loading flag is only up on the loading screen. */
  ghost predicate Valid(m: AppModel)
  {
    && (m.selectedMatchIndex == 0 || m.selectedMatchIndex < |m.matches|)
    && (m.loading ==> m.state == StateLoading)
  }

  /** Every key press keeps the model valid. */
  lemma HandleKeyPreservesValid(m: AppModel, key: string)
    requires Valid(m)
    ensures Valid(HandleKey(m, key).0)
  {
    match m.state
    case StateSearch =>
    case StateProfile =>
    case StateMatches =>
    case StateStats =>
    case StateMatchDetail =>
    case StatePlayerSwitch =>
    case StateComparisonInput =>
    case StateComparison =>
    case StateError =>
    case StateLoading =>
  }

  /** Outside the loading screen a key quits exactly when it is "q" or "ctrl+c"; so 'q' can never be typed. */
  lemma QuitExactlyOnQuitKeys(m: AppModel, key: string)
    requires m.state != StateLoading
    ensures HandleKey(m, key).1 == Quit <==> IsQuitKey(key)
    ensures IsQuitKey(key) ==> HandleKey(m, key).0 == m
  {
    match m.state
    case StateSearch =>
    case StateProfile =>
    case StateMatches =>
    case StateStats =>
    case StateMatchDetail =>
    case StatePlayerSwitch =>
    case StateComparisonInput =>
    case StateComparison =>
    case StateError =>
    case StateLoading =>
  }

  /** No key press changes the loaded matches, the current player or the error text, except
      that leaving the error screen clears the error. */
  lemma HandleKeyKeepsData(m: AppModel, key: string)
    ensures HandleKey(m, key).0.matches == m.matches
    ensures HandleKey(m, key).0.player == m.player
    ensures HandleKey(m, key).0.error == m.error || (m.state == StateError && HandleKey(m, key).0.error == "")
  {
    match m.state
    case StateSearch =>
    case StateProfile =>
    case StateMatches =>
    case StateStats =>
    case StateMatchDetail =>
    case StatePlayerSwitch =>
    case StateComparisonInput =>
    case StateComparison =>
    case StateError =>
    case StateLoading =>
  }

  /** A load command always leaves the model on the loading screen with the loading flag up. */
  lemma LoadsGoThroughLoading(m: AppModel, key: string)
    requires HandleKey(m, key).1 != NoCmd && HandleKey(m, key).1 != Quit
    ensures HandleKey(m, key).0.state == StateLoading && HandleKey(m, key).0.loading
  {
    match m.state
    case StateSearch =>
    case StateProfile =>
    case StateMatches =>
    case StateStats =>
    case StateMatchDetail =>
    case StatePlayerSwitch =>
    case StateComparisonInput =>
    case StateComparison =>
    case StateError =>
    case StateLoading =>
  }

  /** A load asks for what the user entered or selected: a non-blank nickname, or a loaded match. */
  lemma LoadTargets(m: AppModel, key: string)
    ensures HandleKey(m, key).1.LoadPlayerProfile? ==> HandleKey(m, key).1.nickname != ""
    ensures HandleKey(m, key).1.LoadPlayerProfile? && m.state == StateSearch ==> !AllSpace(HandleKey(m, key).1.nickname)
    ensures HandleKey(m, key).1.LoadPlayerComparison? ==> !AllSpace(HandleKey(m, key).1.friendNickname)
    ensures HandleKey(m, key).1.LoadMatchDetail? ==>
      exists i :: 0 <= i < |m.matches| && m.matches[i].matchID == HandleKey(m, key).1.matchID
  {
    var c := HandleKey(m, key).1;
    if c.LoadMatchDetail? {
      assert m.state == StateMatches;
      assert m.matches[m.selectedMatchIndex].matchID == c.matchID;
    }
  }

  /** Switching players keeps the switched-from player first among at most five recent players. */
  lemma PlayerSwitchRemembersPlayer(m: AppModel, key: string)
    requires m.state == StatePlayerSwitch && key == "enter" && m.playerSwitchInput != "" && m.player.Some?
    ensures var r := HandleKey(m, key).0;
      |r.recentPlayers| >= 1 && r.recentPlayers[0] == m.player.value.nickname && |r.recentPlayers| <= MaxRecentPlayers
      && r.searchInput == m.playerSwitchInput
  {
    RecentPlayersFacts(m.recentPlayers, m.player.value.nickname);
  }

  // =====================================================================
  // Match detail and score parsing
  // =====================================================================

  datatype TeamStats = TeamStats(playerTeamScore: int, enemyTeamScore: int, playerTeamRounds: int, enemyTeamRounds: int)

  datatype MatchDetail = MatchDetail(
    matchID: string,
    mapName: string,
    finishedAt: int,
    score: string,
    result: string,
    playerStats: PlayerMatchStats,
    teamStats: TeamStats,
    performance: PerformanceMetrics
  )

  /** The integer in part `k` of "A-B" after trimming, or 0 when there are fewer than two parts or it does not parse. */
  function ScorePart(score: string, k: nat): (r: int)
    requires k < 2
    ensures MinInt64 <= r <= MaxInt64
    ensures |Split(score, '-')| < 2 ==> r == 0
    ensures r != 0 ==> Atoi(TrimSpace(Split(score, '-')[k])) == Some(r)
    ensures |Split(score, '-')| >= 2 && Atoi(TrimSpace(Split(score, '-')[k])).Some? ==>
      r == Atoi(TrimSpace(Split(score, '-')[k])).value
  {
    var parts := Split(score, '-');
    if |parts| >= 2 then
      match Atoi(TrimSpace(parts[k]))
      case Some(v) => v
      case None => 0
    else 0
  }

  /** A score without a dash is a single part. */
  lemma SplitWhole(score: string)
    ensures '-' !in score ==> Split(score, '-') == [score]
  {
    if '-' !in score { SplitNoSeparator(score, '-'); }
  }

  /** extractPlayerTeamScore */
  function ExtractPlayerTeamScore(score: string): (r: int)
    ensures MinInt64 <= r <= MaxInt64
    ensures '-' !in score ==> r == 0
    ensures |Split(score, '-')| >= 2 && Atoi(TrimSpace(Split(score, '-')[0])).Some? ==>
      r == Atoi(TrimSpace(Split(score, '-')[0])).value
    ensures r != 0 ==> |Split(score, '-')| >= 2 && Atoi(TrimSpace(Split(score, '-')[0])) == Some(r)
  {
    SplitWhole(score);
    ScorePart(score, 0)
  }

  /** extractEnemyTeamScore */
  function ExtractEnemyTeamScore(score: string): (r: int)
    ensures MinInt64 <= r <= MaxInt64
    ensures '-' !in score ==> r == 0
    ensures |Split(score, '-')| >= 2 && Atoi(TrimSpace(Split(score, '-')[1])).Some? ==>
      r == Atoi(TrimSpace(Split(score, '-')[1])).value
    ensures r != 0 ==> |Split(score, '-')| >= 2 && Atoi(TrimSpace(Split(score, '-')[1])) == Some(r)
  {
    SplitWhole(score);
    ScorePart(score, 1)
  }

  /** The decimal form of a non-negative number has no dash and no white space at its ends. */
  lemma ItoaShape(n: int)
    requires n >= 0
    ensures '-' !in Itoa(n)
    ensures TrimSpace(Itoa(n)) == Itoa(n)
  {
    var s := Itoa(n);
    assert '-' !in s by {
      forall i | 0 <= i < |s| ensures s[i] != '-' { assert IsDigit(s[i]); }
    }
    assert IsDigit(s[0]) && IsDigit(s[|s| - 1]);
    TrimSpaceUnchanged(s);
  }

  /** Two dash-free parts joined by a dash split back into those parts. */
  lemma SplitScore(sa: string, sb: string)
    requires '-' !in sa && '-' !in sb
    ensures Split(sa + "-" + sb, '-') == [sa, sb]
  {
    SplitCons(sa, '-', sb);
    SplitNoSeparator(sb, '-');
  }

  /** The extractors invert the "A-B" score format for any scores a, b that are not negative. */
  lemma {:induction false} ExtractScoresRoundTrip(a: int, b: int)
    requires 0 <= a <= MaxInt64 && 0 <= b <= MaxInt64
    ensures ExtractPlayerTeamScore(Itoa(a) + "-" + Itoa(b)) == a
    ensures ExtractEnemyTeamScore(Itoa(a) + "-" + Itoa(b)) == b
  {
    ItoaShape(a);
    ItoaShape(b);
    SplitScore(Itoa(a), Itoa(b));
    AtoiItoa(a);
    AtoiItoa(b);
  }

  /** The extractors trim white space around each part: "A-B" padded with white space
      on either side of either number still reads back as A and B. */
  lemma {:induction false} PaddedScoresReadBack(a: int, b: int, p1: string, p2: string, p3: string, p4: string)
    requires 0 <= a <= MaxInt64 && 0 <= b <= MaxInt64
    requires AllSpace(p1) && AllSpace(p2) && AllSpace(p3) && AllSpace(p4)
    ensures ExtractPlayerTeamScore((p1 + Itoa(a) + p2) + "-" + (p3 + Itoa(b) + p4)) == a
    ensures ExtractEnemyTeamScore((p1 + Itoa(a) + p2) + "-" + (p3 + Itoa(b) + p4)) == b
  {
    var sa, sb := p1 + Itoa(a) + p2, p3 + Itoa(b) + p4;
    PaddedPart(a, p1, p2);
    PaddedPart(b, p3, p4);
    TrimmedPartsReadBack(sa, sb, a, b);
  }

  /** A padded number holds no dash and trims to its decimal text. */
  lemma PaddedPart(n: int, pre: string, post: string)
    requires n >= 0 && AllSpace(pre) && AllSpace(post)
    ensures '-' !in pre + Itoa(n) + post
    ensures TrimSpace(pre + Itoa(n) + post) == Itoa(n)
  {
    ItoaShape(n);
    SpacesNoDash(pre);
    SpacesNoDash(post);
    ItoaEnds(n);
    TrimPadded(pre, Itoa(n), post);
  }

  /** Two dash-free parts that trim to the decimal texts of a and b read back as a and b. */
  lemma TrimmedPartsReadBack(sa: string, sb: string, a: int, b: int)
    requires 0 <= a <= MaxInt64 && 0 <= b <= MaxInt64
    requires '-' !in sa && '-' !in sb
    requires TrimSpace(sa) == Itoa(a) && TrimSpace(sb) == Itoa(b)
    ensures ExtractPlayerTeamScore(sa + "-" + sb) == a
    ensures ExtractEnemyTeamScore(sa + "-" + sb) == b
  {
    SplitScore(sa, sb);
    AtoiItoa(a);
    AtoiItoa(b);
  }

  lemma SpacesNoDash(p: string)
    requires AllSpace(p)
    ensures '-' !in p
  {
    forall i | 0 <= i < |p| ensures p[i] != '-' { assert IsSpace(p[i]); }
  }

  lemma ItoaEnds(n: int)
    requires n >= 0
    ensures Itoa(n) != [] && !IsSpace(Itoa(n)[0]) && !IsSpace(Itoa(n)[|Itoa(n)| - 1])
  {
    var s := Itoa(n);
    assert IsDigit(s[0]) && IsDigit(s[|s| - 1]);
  }

  /** A padded score: "16 - 14" gives 16 and 14, where the older extractors give 0 and 0. */
  lemma TrimmingExample()
    ensures ExtractPlayerTeamScore("16 - 14") == 16 && ExtractEnemyTeamScore("16 - 14") == 14
  {
    assert Itoa(16) == "16";
    assert Itoa(14) == "14";
    assert AllSpace("") && AllSpace(" ");
    assert ("" + "16" + " ") + "-" + (" " + "14" + "") == "16 - 14";
    PaddedScoresReadBack(16, 14, "", " ", " ", "");
  }

  /** "16-14" gives 16 and 14; "16" gives 0 and 0. */
  lemma ExtractScoresExamples()
    ensures ExtractPlayerTeamScore("16-14") == 16 && ExtractEnemyTeamScore("16-14") == 14
    ensures ExtractPlayerTeamScore("16") == 0 && ExtractEnemyTeamScore("16") == 0
  {
    assert Itoa(16) == "16";
    assert Itoa(14) == "14";
    assert "16" + "-" + "14" == "16-14";
    ExtractScoresRoundTrip(16, 14);
  }

  /** The detail of one match: the record's own fields, the estimators and the parsed team scores. */
  function DetailOf(b: MatchSummary): MatchDetail
  {
    MatchDetail(b.matchID, b.mapName, b.finishedAt, b.score, b.result,
                PlayerStatsOf(b),
                TeamStats(ExtractPlayerTeamScore(b.score), ExtractEnemyTeamScore(b.score), 0, 0),
                PerformanceOf(b))
  }

  /** getDetailedMatchStats: the detail of the first loaded match with the given id. */
  method GetDetailedMatchStats(matches: seq<MatchSummary>, matchID: string) returns (r: Result<MatchDetail>)
    ensures r.Err? <==> forall i :: 0 <= i < |matches| ==> matches[i].matchID != matchID
    ensures r.Err? ==> r.msg == "match not found"
    ensures r.Ok? ==>
      (exists i :: 0 <= i < |matches| && matches[i].matchID == matchID
        && (forall j :: 0 <= j < i ==> matches[j].matchID != matchID)
        && r.value == DetailOf(matches[i]))
    ensures r.Ok? ==> r.value.matchID == matchID
  {
    var i := 0;
    while i < |matches| && matches[i].matchID != matchID
      invariant 0 <= i <= |matches|
      invariant forall j :: 0 <= j < i ==> matches[j].matchID != matchID
    {
      i := i + 1;
    }
    if i == |matches| {
      return Err("match not found");
    }
    r := Ok(DetailOf(matches[i]));
  }
}
