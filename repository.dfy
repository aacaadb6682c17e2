/**
 * The FACEIT repository (internal/repository/faceit.go): argument checks, the
 * paginated match-history download, the normalisation of history items into
 * match summaries, and the header of a match's detailed statistics.
 *
 * Every call into the FACEIT client is a function argument. A history page is
 * `fetch(batch, offset)`; the statistics endpoint's per-player totals of a match
 * (summed over its rounds, which is not modelled) are `stats(matchID)`.
 */
module Repository {
  import opened Base
  import opened GoStrings
  import opened Entity

  /** The number of matches fetched when the caller asks for none or fewer. */
  const DefaultLimit: nat := 5

  /** The FACEIT API's largest page. */
  const MaxPerRequest: nat := 100

  // =====================================================================
  // API records
  // =====================================================================

  /** A finished match's outcome: the winning team's ID and each team's score. A
      missing score table is an empty map. */
  datatype MatchResults = MatchResults(winner: string, score: map<string, int>)

  /** One entry of a player's match history. `teams` maps each team ID to the IDs of its players. */
  datatype HistoryItem = HistoryItem(
    matchID: string,
    gameMode: string,
    finishedAt: int,
    teams: map<string, seq<string>>,
    results: Option<MatchResults>
  )

  /** A player's totals in one match as the statistics endpoint reports them, present only
      when that call succeeded with at least one round; `firstRoundMap` is the first
      round's "Map" value when it is a string. */
  datatype RoundTotals = RoundTotals(
    kills: int,
    deaths: int,
    assists: int,
    headshotKills: real,
    adr: real,
    firstRoundMap: Option<string>
  )

  // =====================================================================
  // Single-record lookups
  // =====================================================================

  /** GetPlayerByNickname: search by nickname, take the first hit, fetch its profile. */
  function GetPlayerByNickname(nickname: string, search: string -> Result<seq<string>>,
                               getPlayer: string -> Result<PlayerProfile>): (r: Result<PlayerProfile>)
    ensures nickname == "" ==> r == Err("nickname must not be empty")
    ensures nickname != "" && search(nickname) == Ok([]) ==> r == Err("player not found: " + nickname)
    ensures r.Ok? ==> nickname != "" && search(nickname).Ok? && |search(nickname).value| > 0
                      && r == getPlayer(search(nickname).value[0])
    ensures (nickname != "" && search(nickname).Ok? && |search(nickname).value| > 0
             && getPlayer(search(nickname).value[0]).Ok?) ==> r == getPlayer(search(nickname).value[0])
    ensures nickname != "" && search(nickname).Err? ==> r == Err("search players: " + search(nickname).msg)
    ensures (nickname != "" && search(nickname).Ok? && |search(nickname).value| > 0
             && getPlayer(search(nickname).value[0]).Err?) ==>
      r == Err("get player: " + getPlayer(search(nickname).value[0]).msg)
  {
    if nickname == "" then Err("nickname must not be empty")
    else
      match search(nickname)
      case Err(e) => Err("search players: " + e)
      case Ok(ids) =>
        if |ids| == 0 then Err("player not found: " + nickname)
        else
          match getPlayer(ids[0])
          case Err(e) => Err("get player: " + e)
          case Ok(p) => Ok(p)
  }

  /** GetPlayerStats: both identifiers are required before the statistics are fetched. */
  function GetPlayerStats(playerID: string, gameID: string, fetch: (string, string) -> Result<PlayerStats>): (r: Result<PlayerStats>)
    ensures playerID == "" ==> r == Err("playerID must not be empty")
    ensures playerID != "" && gameID == "" ==> r == Err("gameID must not be empty")
    ensures r.Ok? <==> playerID != "" && gameID != "" && fetch(playerID, gameID).Ok?
    ensures r.Ok? ==> r == fetch(playerID, gameID)
    ensures playerID != "" && gameID != "" && fetch(playerID, gameID).Err? ==>
      r == Err("get player stats: " + fetch(playerID, gameID).msg)
  {
    if playerID == "" then Err("playerID must not be empty")
    else if gameID == "" then Err("gameID must not be empty")
    else
      match fetch(playerID, gameID)
      case Err(e) => Err("get player stats: " + e)
      case Ok(s) => Ok(s)
  }

  // =====================================================================
  // Pagination
  // =====================================================================

  /** The number of matches to collect. */
  function EffectiveLimit(limit: int): (l: nat)
    ensures l >= 1
    ensures limit > 0 ==> l == limit
    ensures limit <= 0 ==> l == DefaultLimit
  {
    if limit <= 0 then DefaultLimit else limit
  }

  /** `p` in front of a successful result. */
  function Prefixed<T>(p: seq<T>, r: Result<seq<T>>): Result<seq<T>>
  {
    match r
    case Ok(v) => Ok(p + v)
    case Err(e) => Err(e)
  }

  /** The history items the download gathers once `got` items are in hand: pages of
      min(100, limit − got) at offset `got`, until the limit is reached, an error occurs,
      or a page comes back empty or short. */
  function Collect(fetch: (nat, nat) -> Result<seq<HistoryItem>>, limit: nat, got: nat): Result<seq<HistoryItem>>
    decreases limit - got
  {
    if got >= limit then Ok([])
    else
      var batch := Min(MaxPerRequest, limit - got);
      match fetch(batch, got)
      case Err(e) => Err(e)
      case Ok(items) =>
        if |items| == 0 then Ok([])
        else if |items| < batch then Ok(items)
        else Prefixed(items, Collect(fetch, limit, got + |items|))
  }

  /** The (batch size, offset) requests that download makes, in order. */
  function Requests(fetch: (nat, nat) -> Result<seq<HistoryItem>>, limit: nat, got: nat): seq<(nat, nat)>
    decreases limit - got
  {
    if got >= limit then []
    else
      var batch := Min(MaxPerRequest, limit - got);
      match fetch(batch, got)
      case Err(_) => [(batch, got)]
      case Ok(items) =>
        if |items| < batch then [(batch, got)]
        else [(batch, got)] + Requests(fetch, limit, got + |items|)
  }

  /** Every request asks for between 1 and 100 items, exactly min(100, limit − offset),
      at an offset below the limit; the first is made at the starting offset and each next
      one at the previous offset plus the size of the page it returned. */
  lemma {:induction false} RequestsShape(fetch: (nat, nat) -> Result<seq<HistoryItem>>, limit: nat, got: nat)
    ensures var rs := Requests(fetch, limit, got);
      && (got < limit <==> |rs| > 0)
      && (|rs| > 0 ==> rs[0].1 == got)
      && (forall k :: 0 <= k < |rs| ==>
            got <= rs[k].1 < limit && rs[k].0 == Min(MaxPerRequest, limit - rs[k].1) && 1 <= rs[k].0 <= MaxPerRequest)
      && (forall k :: 0 <= k < |rs| - 1 ==>
            fetch(rs[k].0, rs[k].1).Ok? && rs[k + 1].1 == rs[k].1 + |fetch(rs[k].0, rs[k].1).value|)
    decreases limit - got
  {
    if got < limit {
      var batch := Min(MaxPerRequest, limit - got);
      var page := fetch(batch, got);
      if page.Ok? && |page.value| >= batch {
        var rest := Requests(fetch, limit, got + |page.value|);
        RequestsShape(fetch, limit, got + |page.value|);
        var rs := Requests(fetch, limit, got);
        assert rs == [(batch, got)] + rest;
        forall k | 0 <= k < |rs| - 1
          ensures fetch(rs[k].0, rs[k].1).Ok? && rs[k + 1].1 == rs[k].1 + |fetch(rs[k].0, rs[k].1).value|
        {
          if k > 0 { assert rs[k] == rest[k - 1] && rs[k + 1] == rest[k]; }
        }
      }
    }
  }

  /** If the API never returns more than it is asked for, the download stops at the limit. */
  lemma {:induction false} CollectBound(fetch: (nat, nat) -> Result<seq<HistoryItem>>, limit: nat, got: nat)
    requires forall b: nat, o: nat :: fetch(b, o).Ok? ==> |fetch(b, o).value| <= b
    ensures Collect(fetch, limit, got).Ok? && got <= limit ==> |Collect(fetch, limit, got).value| <= limit - got
    decreases limit - got
  {
    if got < limit {
      var batch := Min(MaxPerRequest, limit - got);
      var page := fetch(batch, got);
      if page.Ok? && |page.value| >= batch {
        CollectBound(fetch, limit, got + |page.value|);
      }
    }
  }

  /** A limit of zero or below fetches one page of five from the start. */
  lemma DefaultFirstRequest(fetch: (nat, nat) -> Result<seq<HistoryItem>>, limit: int)
    requires limit <= 0
    ensures Requests(fetch, EffectiveLimit(limit), 0)[0] == (DefaultLimit, 0)
  {
  }

  // =====================================================================
  // Normalising one history item
  // =====================================================================

  /** `t` is a team the scan over the teams (in Go's unspecified map order) can report:
      a non-empty team ID holding the player, or "" when no non-empty team holds it. */
  predicate IsPlayerTeam(teams: map<string, seq<string>>, playerID: string, t: string)
  {
    if t == "" then forall u :: u in teams && u != "" ==> playerID !in teams[u]
    else t in teams && playerID in teams[t]
  }

  /** The scan for the player's team; it stops at the first non-empty team ID holding the player. */
  method FindPlayerTeam(teams: map<string, seq<string>>, playerID: string) returns (t: string)
    ensures IsPlayerTeam(teams, playerID, t)
  {
    t := "";
    var rest := teams.Keys;
    while rest != {}
      invariant rest <= teams.Keys
      invariant t == ""
      invariant forall u :: u in teams && u !in rest && u != "" ==> playerID !in teams[u]
      decreases rest
    {
      var k :| k in rest;
      if playerID in teams[k] {
        t := k;
      }
      if t != "" {
        break;
      }
      rest := rest - {k};
    }
  }

  /** "Win" exactly when results exist and name the player's team as winner, else "Loss". */
  function ResultOf(results: Option<MatchResults>, team: string): (r: string)
    ensures r == "Win" || r == "Loss"
    ensures r == "Win" <==> results.Some? && results.value.winner == team
  {
    if results.Some? && results.value.winner == team then "Win" else "Loss"
  }

  /** The team scores in ascending team-ID order, joined with "-"; "" without scores. */
  function ScoreString(results: Option<MatchResults>): (r: string)
    ensures results.None? || results.value.score == map[] ==> r == ""
  {
    if results.None? || |results.value.score.Keys| == 0 then ""
    else
      var score := results.value.score;
      var ids := SortedKeys(score.Keys);
      Join(seq(|ids|, i requires 0 <= i < |ids| => Itoa(score[ids[i]])), '-')
  }

  /** Any number of teams: splitting the score string at the dashes gives each team's score
      in ascending team-ID order, provided no score is negative. */
  lemma ScoreStringParts(results: Option<MatchResults>)
    requires results.Some? && results.value.score != map[]
    requires forall t :: t in results.value.score ==> results.value.score[t] >= 0
    ensures var score := results.value.score;
      var ids := SortedKeys(score.Keys);
      Split(ScoreString(results), '-') == seq(|ids|, i requires 0 <= i < |ids| => Itoa(score[ids[i]]))
  {
    var score := results.value.score;
    var ids := SortedKeys(score.Keys);
    var parts := seq(|ids|, i requires 0 <= i < |ids| => Itoa(score[ids[i]]));
    assert ids[0] in score.Keys;
    forall k | 0 <= k < |parts| ensures '-' !in parts[k] {
      ItoaNoDash(score[ids[k]]);
    }
    SplitJoin(parts, '-');
  }

  /** The decimal text of a number that is not negative holds no dash. */
  lemma ItoaNoDash(n: int)
    requires n >= 0
    ensures '-' !in Itoa(n)
  {
    var s := Itoa(n);
    forall i | 0 <= i < |s| ensures s[i] != '-' {
      assert IsDigit(s[i]);
    }
  }

  /** Two teams: the score of the team whose ID sorts first, a dash, the other team's score. */
  lemma TwoTeamScore(winner: string, a: string, b: string, x: int, y: int)
    requires a != b && StrLe(a, b)
    ensures ScoreString(Some(MatchResults(winner, map[a := x, b := y]))) == Itoa(x) + "-" + Itoa(y)
  {
    var score := map[a := x, b := y];
    assert score.Keys == {a, b};
    var ids := SortedKeys(score.Keys);
    assert |ids| == 2;
    assert ids[0] in {a, b} && ids[1] in {a, b} && ids[0] != ids[1];
    if ids[0] == b {
      assert StrLe(b, a);
      StrLeAntisymmetric(a, b);
    }
    assert ids == [a, b];
    var parts := seq(|ids|, i requires 0 <= i < |ids| => Itoa(score[ids[i]]));
    assert parts == [Itoa(x), Itoa(y)];
    assert Join(parts, '-') == Itoa(x) + "-" + Join([Itoa(y)], '-');
  }

  /** K/D: kills over deaths, the kills themselves when there are no deaths, and 0 otherwise. */
  function KDRatio(kills: int, deaths: int): (r: real)
    ensures deaths <= 0 && kills > 0 ==> r == kills as real
    ensures deaths <= 0 && kills <= 0 ==> r == 0.0
  {
    if deaths > 0 then kills as real / deaths as real
    else if kills > 0 then kills as real
    else 0.0
  }

  /** With deaths, K/D times deaths gives back the kills; it is never negative for
      non-negative kills, and 0 exactly when there are no kills. */
  lemma KDRatioMeaning(kills: int, deaths: int)
    ensures deaths > 0 ==> KDRatio(kills, deaths) * deaths as real == kills as real
    ensures kills >= 0 ==> KDRatio(kills, deaths) >= 0.0
    ensures kills >= 0 ==> (KDRatio(kills, deaths) == 0.0 <==> kills == 0)
  {
    if deaths > 0 {
      var r := kills as real / deaths as real;
      assert r * deaths as real == kills as real;
      if kills > 0 {
        assert r > 0.0;
      }
    }
  }

  /** Headshot percentage from the estimated headshot kills; 0 without kills. */
  function HeadshotPercentage(kills: int, headshotKills: real): (r: real)
    ensures kills <= 0 ==> r == 0.0
  {
    if kills > 0 then headshotKills / kills as real * 100.0 else 0.0
  }

  /** With kills, the percentage is the headshot share of the kills. */
  lemma HeadshotPercentageMeaning(kills: int, headshotKills: real)
    requires kills > 0
    ensures HeadshotPercentage(kills, headshotKills) * kills as real == headshotKills * 100.0
  {
    var q := headshotKills / kills as real;
    assert q * kills as real == headshotKills;
  }

  /** The game mode, unless it is generic ("5v5" or empty) and the first round names a map. */
  function MapNameOf(gameMode: string, fetched: Option<RoundTotals>): (r: string)
    ensures gameMode != "5v5" && gameMode != "" ==> r == gameMode
    ensures r != gameMode ==> fetched.Some? && fetched.value.firstRoundMap == Some(r)
    ensures (gameMode == "5v5" || gameMode == "") && fetched.Some? && fetched.value.firstRoundMap.Some? ==>
      r == fetched.value.firstRoundMap.value
  {
    if (gameMode == "5v5" || gameMode == "") && fetched.Some? && fetched.value.firstRoundMap.Some?
    then fetched.value.firstRoundMap.value
    else gameMode
  }

  /** The summary of one history item, given the player's team and the match's totals. */
  function SummaryWith(item: HistoryItem, team: string, fetched: Option<RoundTotals>): (s: MatchSummary)
    ensures s.matchID == item.matchID && s.finishedAt == item.finishedAt
    ensures s.result == "Win" <==> item.results.Some? && item.results.value.winner == team
    ensures fetched.None? ==> s.kills == 0 && s.deaths == 0 && s.assists == 0 && s.kdRatio == 0.0 && s.adr == 0.0
  {
    var kills := if fetched.Some? then fetched.value.kills else 0;
    var deaths := if fetched.Some? then fetched.value.deaths else 0;
    var assists := if fetched.Some? then fetched.value.assists else 0;
    var hsKills := if fetched.Some? then fetched.value.headshotKills else 0.0;
    var adr := if fetched.Some? then fetched.value.adr else 0.0;
    MatchSummary(item.matchID, MapNameOf(item.gameMode, fetched), item.finishedAt, ScoreString(item.results),
                 kills, deaths, assists, KDRatio(kills, deaths), HeadshotPercentage(kills, hsKills), adr,
                 ResultOf(item.results, team))
  }

  /** `results` summarise `items` one for one, in order, each with a team the scan can report. */
  ghost predicate SummarizesItems(items: seq<HistoryItem>, playerID: string, stats: string -> Option<RoundTotals>,
                                  results: seq<MatchSummary>, teams: seq<string>)
  {
    && |results| == |items| && |teams| == |items|
    && forall j :: 0 <= j < |items| ==> SummarizedWith(items[j], playerID, stats, results[j], teams[j])
  }

  /** `s` summarises `item` with `team`, a team the scan can report. */
  ghost predicate SummarizedWith(item: HistoryItem, playerID: string, stats: string -> Option<RoundTotals>,
                                 s: MatchSummary, team: string)
  {
    IsPlayerTeam(item.teams, playerID, team) && s == SummaryWith(item, team, stats(item.matchID))
  }

  /** `s` summarises `item` with some team the scan can report. */
  ghost predicate SummaryForSomeTeam(item: HistoryItem, playerID: string, fetched: Option<RoundTotals>, s: MatchSummary)
  {
    exists t :: IsPlayerTeam(item.teams, playerID, t) && s == SummaryWith(item, t, fetched)
  }

  /** `results` summarise `items` one for one, in order, each with some team its scan can report. */
  ghost predicate SummarizesSome(items: seq<HistoryItem>, playerID: string, stats: string -> Option<RoundTotals>,
                                 results: seq<MatchSummary>)
  {
    && |results| == |items|
    && forall j :: 0 <= j < |items| ==> SummaryForSomeTeam(items[j], playerID, stats(items[j].matchID), results[j])
  }

  /** Forgetting which team each scan found. */
  lemma SummarizesForget(items: seq<HistoryItem>, playerID: string, stats: string -> Option<RoundTotals>,
                         results: seq<MatchSummary>, teams: seq<string>)
    requires SummarizesItems(items, playerID, stats, results, teams)
    ensures SummarizesSome(items, playerID, stats, results)
  {
    forall j | 0 <= j < |items|
      ensures SummaryForSomeTeam(items[j], playerID, stats(items[j].matchID), results[j])
    {
      assert SummarizedWith(items[j], playerID, stats, results[j], teams[j]);
    }
  }

  /** processMatches: one summary per history item, in input order. The ghost `teams`
      records the team each item's scan found. */
  method ProcessMatches(items: seq<HistoryItem>, playerID: string, stats: string -> Option<RoundTotals>)
    returns (results: seq<MatchSummary>, ghost teams: seq<string>)
    ensures SummarizesSome(items, playerID, stats, results)
    ensures SummarizesItems(items, playerID, stats, results, teams)
  {
    results, teams := [], [];
    var i := 0;
    while i < |items|
      invariant 0 <= i <= |items|
      invariant SummarizesItems(items[..i], playerID, stats, results, teams)
    {
      var item := items[i];
      var team := FindPlayerTeam(item.teams, playerID);
      var summary := SummaryWith(item, team, stats(item.matchID));
      SummarizesNext(items, i, playerID, stats, results, teams, team);
      results := results + [summary];
      teams := teams + [team];
      i := i + 1;
    }
    assert items[..i] == items;
    SummarizesForget(items, playerID, stats, results, teams);
  }

  /** One more item, summarised with a team its scan can report. */
  lemma SummarizesNext(items: seq<HistoryItem>, i: nat, playerID: string, stats: string -> Option<RoundTotals>,
                       results: seq<MatchSummary>, teams: seq<string>, team: string)
    requires i < |items| && SummarizesItems(items[..i], playerID, stats, results, teams)
    requires IsPlayerTeam(items[i].teams, playerID, team)
    ensures SummarizesItems(items[..i + 1], playerID, stats,
                            results + [SummaryWith(items[i], team, stats(items[i].matchID))], teams + [team])
  {
    var summary := SummaryWith(items[i], team, stats(items[i].matchID));
    SummarizesAppend(items[..i], [items[i]], playerID, stats, results, [summary], teams, [team]);
    assert items[..i + 1] == items[..i] + [items[i]];
  }

  /** Appending the summaries of a page to those of the items before it. */
  lemma SummarizesAppend(a: seq<HistoryItem>, b: seq<HistoryItem>, playerID: string, stats: string -> Option<RoundTotals>,
                         ra: seq<MatchSummary>, rb: seq<MatchSummary>, ta: seq<string>, tb: seq<string>)
    requires SummarizesItems(a, playerID, stats, ra, ta) && SummarizesItems(b, playerID, stats, rb, tb)
    ensures SummarizesItems(a + b, playerID, stats, ra + rb, ta + tb)
  {
    forall j | 0 <= j < |a + b|
      ensures SummarizedWith((a + b)[j], playerID, stats, (ra + rb)[j], (ta + tb)[j])
    {
      if j < |a| {
        assert (a + b)[j] == a[j] && (ra + rb)[j] == ra[j] && (ta + tb)[j] == ta[j];
      } else {
        assert (a + b)[j] == b[j - |a|] && (ra + rb)[j] == rb[j - |a|] && (ta + tb)[j] == tb[j - |a|];
      }
    }
  }

  /** GetPlayerRecentMatches: checks the identifiers, then downloads pages and normalises each one.
      The ghost `requests` lists the (batch size, offset) of every page request made. */
  method GetPlayerRecentMatches(playerID: string, gameID: string, limit: int,
                                fetch: (nat, nat) -> Result<seq<HistoryItem>>,
                                stats: string -> Option<RoundTotals>)
    returns (r: Result<seq<MatchSummary>>, ghost requests: seq<(nat, nat)>, ghost teams: seq<string>)
    ensures playerID == "" ==> r == Err("playerID must not be empty") && requests == []
    ensures playerID != "" && gameID == "" ==> r == Err("gameID must not be empty") && requests == []
    ensures playerID != "" && gameID != "" ==>
      && requests == Requests(fetch, EffectiveLimit(limit), 0)
      && match Collect(fetch, EffectiveLimit(limit), 0)
         case Err(e) => r == Err("get player history: " + e)
         case Ok(items) => r.Ok? && SummarizesItems(items, playerID, stats, r.value, teams)
    ensures playerID != "" && gameID != "" && Collect(fetch, EffectiveLimit(limit), 0).Ok? ==>
      r.Ok? && SummarizesSome(Collect(fetch, EffectiveLimit(limit), 0).value, playerID, stats, r.value)
  {
    if playerID == "" {
      return Err("playerID must not be empty"), [], [];
    }
    if gameID == "" {
      return Err("gameID must not be empty"), [], [];
    }
    r, requests, teams := Download(playerID, EffectiveLimit(limit), fetch, stats);
  }

  /** After `raw` has been gathered and `requests` made, the rest of the download
      accounts for everything else. */
  ghost predicate OnTrack(fetch: (nat, nat) -> Result<seq<HistoryItem>>, lim: nat,
                          raw: seq<HistoryItem>, requests: seq<(nat, nat)>)
  {
    && Prefixed(raw, Collect(fetch, lim, |raw|)) == Collect(fetch, lim, 0)
    && requests + Requests(fetch, lim, |raw|) == Requests(fetch, lim, 0)
  }

  /** The download's last request: it failed, came back empty or came back short. */
  lemma OnTrackLast(fetch: (nat, nat) -> Result<seq<HistoryItem>>, lim: nat,
                    raw: seq<HistoryItem>, requests: seq<(nat, nat)>)
    requires OnTrack(fetch, lim, raw, requests) && |raw| < lim
    ensures var batch := Min(MaxPerRequest, lim - |raw|);
      var page := fetch(batch, |raw|);
      && (page.Err? || |page.value| < batch ==> Requests(fetch, lim, 0) == requests + [(batch, |raw|)])
      && (page.Err? ==> Collect(fetch, lim, 0) == Err(page.msg))
      && (page.Ok? && |page.value| < batch ==> Collect(fetch, lim, 0) == Ok(raw + page.value))
  {
    var batch := Min(MaxPerRequest, lim - |raw|);
    var page := fetch(batch, |raw|);
    if page.Ok? && |page.value| == 0 {
      assert raw + page.value == raw;
    }
  }

  /** A full page keeps the download on track. */
  lemma OnTrackFull(fetch: (nat, nat) -> Result<seq<HistoryItem>>, lim: nat,
                    raw: seq<HistoryItem>, requests: seq<(nat, nat)>)
    requires OnTrack(fetch, lim, raw, requests) && |raw| < lim
    requires var batch := Min(MaxPerRequest, lim - |raw|);
      fetch(batch, |raw|).Ok? && |fetch(batch, |raw|).value| >= batch
    ensures var batch := Min(MaxPerRequest, lim - |raw|);
      OnTrack(fetch, lim, raw + fetch(batch, |raw|).value, requests + [(batch, |raw|)])
  {
    var batch := Min(MaxPerRequest, lim - |raw|);
    var page := fetch(batch, |raw|).value;
    PrefixedAppend(raw, page, Collect(fetch, lim, |raw| + |page|));
  }

  /** Once the limit is reached nothing more is requested. */
  lemma OnTrackDone(fetch: (nat, nat) -> Result<seq<HistoryItem>>, lim: nat,
                    raw: seq<HistoryItem>, requests: seq<(nat, nat)>)
    requires OnTrack(fetch, lim, raw, requests) && |raw| >= lim
    ensures Collect(fetch, lim, 0) == Ok(raw) && Requests(fetch, lim, 0) == requests
  {
    assert raw + [] == raw;
  }

  /** The pagination loop of GetPlayerRecentMatches for a positive limit. */
  method Download(playerID: string, lim: nat, fetch: (nat, nat) -> Result<seq<HistoryItem>>,
                  stats: string -> Option<RoundTotals>)
    returns (r: Result<seq<MatchSummary>>, ghost requests: seq<(nat, nat)>, ghost teams: seq<string>)
    ensures requests == Requests(fetch, lim, 0)
    ensures match Collect(fetch, lim, 0)
      case Err(e) => r == Err("get player history: " + e)
      case Ok(items) => r.Ok? && SummarizesItems(items, playerID, stats, r.value, teams)
    ensures Collect(fetch, lim, 0).Ok? ==> r.Ok? && SummarizesSome(Collect(fetch, lim, 0).value, playerID, stats, r.value)
  {
    requests, teams := [], [];
    var allMatches: seq<MatchSummary> := [];
    ghost var raw: seq<HistoryItem> := [];
    var offset := 0;
    PrefixedNil(Collect(fetch, lim, 0));
    while |allMatches| < lim
      invariant offset == |raw| == |allMatches|
      invariant SummarizesItems(raw, playerID, stats, allMatches, teams)
      invariant OnTrack(fetch, lim, raw, requests)
      decreases lim - |allMatches|
    {
      var remaining := lim - |allMatches|;
      var batchSize := MaxPerRequest;
      if remaining < MaxPerRequest {
        batchSize := remaining;
      }
      var history := fetch(batchSize, offset);
      if history.Err? || |history.value| < batchSize {
        OnTrackLast(fetch, lim, raw, requests);
      } else {
        OnTrackFull(fetch, lim, raw, requests);
      }
      requests := requests + [(batchSize, offset)];
      if history.Err? {
        return Err("get player history: " + history.msg), requests, teams;
      }
      var page := history.value;
      if |page| == 0 {
        assert raw + page == raw;
        SummarizesForget(raw, playerID, stats, allMatches, teams);
        return Ok(allMatches), requests, teams;
      }
      var processed, pageTeams := ProcessMatches(page, playerID, stats);
      SummarizesAppend(raw, page, playerID, stats, allMatches, processed, teams, pageTeams);
      allMatches, teams := allMatches + processed, teams + pageTeams;
      raw := raw + page;
      if |page| < batchSize {
        SummarizesForget(raw, playerID, stats, allMatches, teams);
        return Ok(allMatches), requests, teams;
      }
      offset := offset + |page|;
    }
    OnTrackDone(fetch, lim, raw, requests);
    SummarizesForget(raw, playerID, stats, allMatches, teams);
    r := Ok(allMatches);
  }

  lemma PrefixedNil<T>(r: Result<seq<T>>)
    ensures Prefixed([], r) == r
  {
    if r.Ok? {
      assert [] + r.value == r.value;
    }
  }

  lemma PrefixedAppend<T>(a: seq<T>, b: seq<T>, r: Result<seq<T>>)
    ensures Prefixed(a, Prefixed(b, r)) == Prefixed(a + b, r)
  {
    if r.Ok? {
      assert a + (b + r.value) == (a + b) + r.value;
    }
  }

  // =====================================================================
  // Match statistics header
  // =====================================================================

  /** The match endpoint's answer: when it finished and its status. */
  datatype MatchInfo = MatchInfo(finishedAt: int, status: string)

  /** The first round's "Map" and "Score" values when they are strings; None when the
      statistics have no rounds. */
  datatype FirstRound = FirstRound(mapValue: Option<string>, scoreValue: Option<string>)

  /** strings.ReplaceAll(s, " / ", "-"): non-overlapping occurrences, left to right. */
  function ReplaceSeparator(s: string): (r: string)
    ensures |r| <= |s|
    decreases |s|
  {
    if |s| >= 3 && s[..3] == " / " then "-" + ReplaceSeparator(s[3..])
    else if s == [] then []
    else [s[0]] + ReplaceSeparator(s[1..])
  }

  /** Text without a slash is left alone. */
  lemma {:induction false} ReplaceSeparatorNoSlash(s: string)
    requires '/' !in s
    ensures ReplaceSeparator(s) == s
    decreases |s|
  {
    if s != [] {
      if |s| >= 3 {
        assert s[1] in s;
      }
      ReplaceSeparatorNoSlash(s[1..]);
    }
  }

  /** "A / B" becomes "A-B" when neither side holds a slash. */
  lemma {:induction false} ReplaceSeparatorJoins(a: string, b: string)
    requires '/' !in a && '/' !in b
    ensures ReplaceSeparator(a + " / " + b) == a + "-" + b
    decreases |a|
  {
    if a == [] {
      var s := a + " / " + b;
      assert s[..3] == " / " && s[3..] == b;
      ReplaceSeparatorNoSlash(b);
    } else {
      assert '/' !in a[1..] by { forall c | c in a[1..] ensures c != '/' { assert c in a; } }
      ReplaceSeparatorJoins(a[1..], b);
      ReplaceSeparatorHead(a, b);
    }
  }

  /** The first character of a slash-free left side is copied, and the rest is replaced. */
  lemma ReplaceSeparatorHead(a: string, b: string)
    requires a != [] && '/' !in a
    requires ReplaceSeparator(a[1..] + " / " + b) == a[1..] + "-" + b
    ensures ReplaceSeparator(a + " / " + b) == a + "-" + b
  {
    var s := a + " / " + b;
    calc {
      ReplaceSeparator(s);
    == { assert s[1] != '/' by {
           if |a| >= 2 { assert s[1] == a[1] && a[1] in a; } else { assert s[1] == ' '; }
         }
         ReplaceSeparatorStep(s); }
      [s[0]] + ReplaceSeparator(s[1..]);
    == { assert s[0] == a[0] && s[1..] == a[1..] + " / " + b; }
      [a[0]] + (a[1..] + "-" + b);
    == { assert [a[0]] + a[1..] == a; }
      a + "-" + b;
    }
  }

  /** A character that does not start a separator is copied as it is. */
  lemma ReplaceSeparatorStep(s: string)
    requires |s| >= 2 && s[1] != '/'
    ensures ReplaceSeparator(s) == [s[0]] + ReplaceSeparator(s[1..])
  {
    if |s| >= 3 {
      assert s[..3][1] == s[1];
    }
  }

  /** GetMatchStats, the header part: the identifier check, the match lookup, and the
      map and score read from the first round of the statistics, with their fallbacks. */
  function GetMatchStats(matchID: string, getMatch: string -> Result<MatchInfo>,
                         getStats: string -> Result<Option<FirstRound>>): (r: Result<MatchStats>)
    ensures r == Err("matchID must not be empty") <==> matchID == ""
    ensures matchID != "" && getMatch(matchID).Err? ==>
      r == Err("match not found: " + matchID + ". Please check the Match ID and try again")
    ensures r.Ok? ==> (getMatch(matchID).Ok? && r.value.matchID == matchID
      && r.value.finishedAt == getMatch(matchID).value.finishedAt && r.value.result == getMatch(matchID).value.status)
    ensures r.Ok? && getStats(matchID).Err? ==> r.value.mapName == "Unknown" && r.value.score == "N/A"
    ensures matchID != "" && getMatch(matchID).Ok? ==> r.Ok?
    ensures r.Ok? && getStats(matchID).Ok? ==>
      var first := getStats(matchID).value;
      && (first.Some? && first.value.mapValue.Some? ==> r.value.mapName == first.value.mapValue.value)
      && (first.None? || first.value.mapValue.None? ==> r.value.mapName == "Unknown")
      && (first.Some? && first.value.scoreValue.Some? ==> r.value.score == ReplaceSeparator(first.value.scoreValue.value))
      && (first.None? || first.value.scoreValue.None? ==> r.value.score == "0-0")
  {
    if matchID == "" then Err("matchID must not be empty")
    else
      match getMatch(matchID)
      case Err(_) => Err("match not found: " + matchID + ". Please check the Match ID and try again")
      case Ok(info) =>
        match getStats(matchID)
        case Err(_) => Ok(MatchStats(matchID, "Unknown", info.finishedAt, "N/A", info.status))
        case Ok(first) =>
          var mapName := if first.Some? && first.value.mapValue.Some? then first.value.mapValue.value else "Unknown";
          var score := if first.Some? && first.value.scoreValue.Some? then ReplaceSeparator(first.value.scoreValue.value) else "0-0";
          Ok(MatchStats(matchID, mapName, info.finishedAt, score, info.status))
  }
}
