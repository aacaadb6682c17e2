# faceit-cli core, modelled in Dafny

faceit-cli is a terminal client for FACEIT Counter-Strike statistics. This
project models its core logic in Dafny and proves what that logic promises:

- the statistics engine behind the profile, statistics and comparison screens:
  `calculateStats`, `calculateStreaks`, the per-match estimators, the comparison
  of two players and the recent-players list (`stats.dfy`, `estimators.dfy`);
- the key-driven screen state machine, the score parsers and the match-detail
  lookup (`screens.dfy`);
- the older revision of the same user-interface logic in `internal/ui/models.go`,
  in a module of its own because it redeclares the same names with other rules
  (`legacy.dfy`);
- the TTL cache and the read-through cached repository (`cache.dfy`);
- the repository's argument checks, history pagination, match normalisation
  and match-statistics header (`repository.dfy`);
- how the repository's score strings are read back by the detail screen
  (`scoreflow.dfy`);
- configuration loading from the environment (`config.dfy`) and log-level
  parsing (`logger.dfy`).

`go_strings.dfy` holds the parts of Go's `strings` and `strconv` the core relies
on: `Split`, `Join`, `TrimSpace`, `Atoi`, `Itoa`, ASCII case mapping and the
byte-wise string order with `sort.Strings`. `entity.dfy` holds the records of
`internal/entity`, and `base.dfy` holds `Option`, `Result`, `Min` and `Max`.

The model takes the source's own form:

- Loops that update counters, maps and slices are methods with loop invariants.
  Each is proved against a specification function or predicate. Examples are
  `Stats.Accumulate`, `Stats.ScanLongestStreaks`, `Repository.Download` and
  `TtlCache.Cache.Sweep`.
- The cache is a class whose methods update its `items` map.
- The screen handlers, estimators, extractors, configuration loading and
  log-level parsing are functions.
- Go's unspecified map iteration order is a nondeterministic choice (`:|`). The
  results that depend on it are stated relationally, for example "some map with
  the largest count".
- Calls into the FACEIT API are function parameters, and so is the clock
  (`now`).

One observation the proofs make explicit: the repository orders the two team
scores by team ID, and the detail screen reads the first one as the player's
team score. So the "player team score" is the score of the team whose ID sorts
first, whichever team the player was on (`ScoreFlow.HistoryScoreReadBack`).

## Model

| member | source | states |
|---|---|---|
| Stats.AddToRecentPlayers | internal/ui/helpers.go:11-25 | the new list is exactly the remembered-list rule `WithRecent`: the first occurrence removed, the nickname put first, the list cut to five |
| Stats.RecentPlayersFacts | internal/ui/helpers.go:11-25 | the list starts with the nickname, holds at most 5 names and only names seen before; for a duplicate-free list it stays duplicate-free and the other names keep their relative order |
| Stats.CalculateStats | internal/ui/helpers.go:28-113 | empty input gives the zero summary; otherwise wins + losses = total = chart length = match count, non-"Win" counts as a loss, averages are positive-only sums over the match count, best = max(0, positive K/Ds), worst = min(100, positive K/Ds), per-map counts, a most-played map with the largest count, and the streaks |
| Stats.Accumulate | internal/ui/helpers.go:39-77 | the loop's totals, positive-only K/D and HS sums, best/worst K/D bounds, per-map counts, and chart entry i = the K/D when positive, else 0 |
| Stats.TotalsStep | internal/ui/helpers.go:44-53 | one match adds its kills, deaths and assists and one win when its result is "Win", otherwise one loss |
| Stats.KDBoundsStep | internal/ui/helpers.go:56-66 | a positive K/D raises best or lowers worst when it beats them, keeping best/worst as the max/min of 0/100 and the positive K/Ds |
| Stats.MapCountsMeaning | internal/ui/helpers.go:74-76 | the table holds exactly the non-empty map names played, each with its number of matches |
| Stats.MostPlayed | internal/ui/helpers.go:97-103 | the "first strictly larger count" scan returns a result allowed by Go's unspecified key order |
| Stats.MostPlayedIsAMaximalMap | internal/ui/helpers.go:96-103 | the most-played map is "" iff no map was counted, else a counted map with the largest count |
| Stats.AverageExample | internal/ui/helpers_test.go:52-70 | K/D ratios 1.5, 1.2, 0.8, 0.9, 1.1 average to 1.1 and headshot percentages 70..65 average to 60 |
| Stats.CalculateStreaks | internal/ui/helpers.go:116-170 | the current streak is the leading run of decided results (positive "win", negative "loss", skipping other results); the longest win and loss streaks are the longest runs without the opposite result |
| Stats.ScanCurrentStreak | internal/ui/helpers.go:121-147 | the first loop computes exactly the leading run |
| Stats.ScanLongestStreaks | internal/ui/helpers.go:149-167 | the second loop computes exactly the longest win and loss runs |
| Stats.TrackingStep | internal/ui/helpers.go:153-166 | one step of the longest-run loop keeps its invariant for each kind of result |
| Stats.CurrentWithinLongest | internal/ui/helpers.go:116-170 | the current streak never exceeds the longest streak of its kind nor the number of matches |
| Stats.LongestRunUnique | internal/ui/helpers.go:149-167 | the longest-run specification determines a single number |
| Stats.MixedResultsExample | internal/ui/helpers_test.go:156-169 | [W,W,L,L,L,W] gives current +2 "win", longest win 2, longest loss 3 |
| Stats.FindCommonMaps | internal/ui/helpers.go:370-378 | lists, once each, exactly the maps both players have played |
| Stats.FindMostPlayedMap | internal/ui/helpers.go:349-367 | "No common maps" without common maps, else a common map with the largest combined count |
| Stats.CalculateComparisonData | internal/ui/helpers.go:332-346 | every numeric field is player 1 minus player 2, plus the common maps and the most played common map |
| Stats.ComparisonSwap | internal/ui/helpers.go:332-346 | swapping the players negates every delta, keeps the same common maps and the same largest combined count |
| Estimators.ADR | internal/ui/helpers.go:218-227 | the stored ADR when positive, else (100 kills + 50 assists) / 30; not negative for non-negative counts |
| Estimators.HLTVRating | internal/ui/helpers.go:229-255 | never negative, and exactly the weighted sum 0.5 × K/D + 0.3 × headshot share + 0.2 × ADR/100 whenever that sum is not negative |
| Estimators.RatingMonotoneInKD | internal/ui/helpers.go:229-255 | a better K/D never lowers the rating |
| Estimators.FirstKills | internal/ui/helpers.go:257-260 | 30% of the kills, truncated, between 0 and the kills |
| Estimators.FirstDeaths | internal/ui/helpers.go:262-265 | 20% of the deaths, truncated |
| Estimators.ClutchWins | internal/ui/helpers.go:267-273 | 0 unless a won match with K/D > 1, then 10% of the kills, truncated |
| Estimators.EntryFrags | internal/ui/helpers.go:275-278 | 25% of the kills, truncated |
| Estimators.FlashAssists | internal/ui/helpers.go:280-283 | 40% of the assists, truncated |
| Estimators.UtilityDamage | internal/ui/helpers.go:285-288 | 20 per assist plus 5 per kill, exactly |
| Estimators.TruncFraction | internal/ui/helpers.go:257-283 | truncating a non-negative count times a fraction stays within [0, count] |
| Estimators.ConsistencyScore | internal/ui/helpers.go:291-304 | every band in both directions: 90 iff K/D >= 1.5, 80 iff 1.2 <= K/D < 1.5, 70 iff 1.0 <= K/D < 1.2, 60 iff 0.8 <= K/D < 1.0, 50 iff K/D < 0.8 |
| Estimators.ConsistencyMonotone | internal/ui/helpers.go:291-304 | non-decreasing in K/D |
| Estimators.ImpactScore | internal/ui/helpers.go:306-311 | not negative for non-negative inputs |
| Estimators.ImpactMonotone | internal/ui/helpers.go:306-311 | grows with K/D and headshot percentage |
| Estimators.ClutchScore | internal/ui/helpers.go:313-319 | 20 unless a won match with K/D > 1, and then above 30 |
| Estimators.ClutchEstimatesAgree | internal/ui/helpers.go:267-273 | clutch wins are credited only where the clutch score exceeds 30 |
| Estimators.EntryScore | internal/ui/helpers.go:321-324 | 0 without kills or K/D, otherwise not negative |
| Estimators.SupportScore | internal/ui/helpers.go:326-329 | 15 per assist: zero iff no assists |
| Screens.EditBuffer | internal/ui/updates.go:26-33 | backspace drops the last character, a one-byte key is appended, anything else leaves the buffer |
| Screens.UpdateSearch | internal/ui/updates.go:16-36 | quit keys quit; enter on a non-blank input loads that profile; blank enter does nothing; other keys edit the input |
| Screens.UpdateProfile | internal/ui/updates.go:39-69 | each of esc, m, s, c, p leads to its screen or load; any other key does nothing |
| Screens.UpdatePlayerSwitch | internal/ui/updates.go:72-104 | esc returns to the profile; enter on a non-empty input remembers the current player and loads the new one; other keys edit the input |
| Screens.UpdateMatches | internal/ui/updates.go:107-135 | up/k and down/j move the selection within the list; enter/d loads the selected match's detail |
| Screens.UpdateReadOnly | internal/ui/updates.go:138-159 | a read-only screen only quits or goes back |
| Screens.UpdateStats | internal/ui/updates.go:138-147 | quit keys quit, esc goes back to the profile, every other key changes nothing |
| Screens.UpdateMatchDetail | internal/ui/updates.go:150-159 | quit keys quit, esc goes back to the match list, every other key changes nothing |
| Screens.UpdateError | internal/ui/updates.go:162-172 | esc or enter clears the error and returns to search |
| Screens.UpdateComparisonInput | internal/ui/updates.go:313-337 | esc returns to the profile; enter on a non-blank input loads the comparison; other keys edit the input |
| Screens.UpdateComparison | internal/ui/updates.go:340-350 | esc clears the comparison and returns to the profile |
| Screens.HandleKey | internal/ui/models.go:157-180 | the loading screen ignores keys; a quit command leaves the model unchanged |
| Screens.HandleKeyPreservesValid | internal/ui/models.go:157-180 | every key keeps the selection within the list and the loading flag only on the loading screen |
| Screens.QuitExactlyOnQuitKeys | internal/ui/models.go:157-180 | outside the loading screen a key quits iff it is "q" or "ctrl+c", and quitting changes nothing |
| Screens.HandleKeyKeepsData | internal/ui/models.go:157-180 | no key changes the loaded matches or player; only leaving the error screen clears the error |
| Screens.LoadsGoThroughLoading | internal/ui/models.go:157-180 | every load command puts the model on the loading screen |
| Screens.LoadTargets | internal/ui/models.go:157-180 | loads ask for a non-blank nickname or a loaded match's id |
| Screens.PlayerSwitchRemembersPlayer | internal/ui/updates.go:80-90 | switching players puts the previous player first among at most five recent players |
| Screens.ExtractPlayerTeamScore | internal/ui/updates.go:290-299 | with at least two dash-separated parts, a trimmed first part that parses gives its value; a non-zero result is always that value; a score without a dash gives 0; the result is a 64-bit integer |
| Screens.ExtractEnemyTeamScore | internal/ui/updates.go:301-310 | with at least two dash-separated parts, a trimmed second part that parses gives its value; a non-zero result is always that value; a score without a dash gives 0; the result is a 64-bit integer |
| Screens.ScorePart | internal/ui/updates.go:290-310 | fewer than two parts give 0; with two or more, the trimmed part parsed when it parses, and a non-zero result only then |
| Screens.PaddedScoresReadBack | internal/ui/updates.go:290-310 | "A-B" with white space around either number still reads back as A and B |
| Screens.TrimmingExample | internal/ui/updates.go:290-310 | "16 - 14" gives 16 and 14 (the older extractors give 0 and 0) |
| Screens.ExtractScoresRoundTrip | internal/ui/updates.go:290-310 | "A-B" written from non-negative scores is read back as A and B |
| Screens.ExtractScoresExamples | internal/ui/updates.go:290-310 | "16-14" gives 16 and 14; "16" gives 0 and 0 |
| Screens.GetDetailedMatchStats | internal/ui/updates.go:234-287 | "match not found" iff no loaded match has the id; otherwise the detail of the first match with it |
| Legacy.CalculateStreaks | internal/ui/models.go:558-614 | the current streak is the leading run of wins or non-wins ("none" when empty); the longest runs of each outcome |
| Legacy.ScanLongestStreaks | internal/ui/models.go:592-611 | the second loop computes exactly the longest win and non-win runs |
| Legacy.TrackingStep | internal/ui/models.go:597-611 | one step of the older longest-run loop keeps its invariant |
| Legacy.CurrentWithinLongest | internal/ui/models.go:558-614 | a non-empty list always has a streak, never longer than the longest of its kind |
| Legacy.NonWinIsLoss | internal/ui/models.go:558-614 | [Win, Draw, Win] gives current 1 "win" and longest streaks 1 and 1 |
| Legacy.CalculateStats | internal/ui/models.go:472-555 | the older summary: non-"Win" is a loss, best/worst K/D start at the -1/999 markers and are reset to 0 when untouched, the chart is every K/D |
| Legacy.Accumulate | internal/ui/models.go:488-524 | the older loop's totals, sums, extremes against the markers, per-map counts and chart |
| Legacy.ExtremesStep | internal/ui/models.go:502-510 | one match keeps best/worst as markers or attained positive K/Ds that bound all positive K/Ds |
| Legacy.ExtremesFinal | internal/ui/models.go:547-552 | resetting an untouched marker gives 0, else the largest / smallest positive K/D |
| Legacy.CopyCounts | internal/ui/models.go:534-541 | the map table is copied and the "first strictly larger count" scan result is chosen |
| Legacy.UpdateMatches | internal/ui/models.go:345-373 | every key case: quit, esc to the profile, up/k and down/j move the selection by one only within the list, enter/d on a valid selection loads that match with loading set and the loading screen, every other key changes nothing |
| Legacy.NavigationStaysInRange | internal/ui/models.go:352-363 | the selection stays within [0, max(0, len - 1)] |
| Legacy.ADR | internal/ui/models.go:996-1001 | always (100 kills + 50 assists) / 30 |
| Legacy.ADRIgnoresStoredValue | internal/ui/models.go:996-1001 | the stored ADR plays no part |
| Legacy.HLTVRating | internal/ui/models.go:1003-1015 | never above 2.0, and exactly the older weighted sum 0.4 × K/D + 0.2 × headshot share + 0.4 × ADR/100 whenever that sum is at most 2.0 |
| Legacy.RatingMonotoneInKD | internal/ui/models.go:1003-1015 | a better K/D never lowers the older rating |
| Legacy.FirstKills | internal/ui/models.go:1017-1020 | 20% of the kills, truncated |
| Legacy.FirstDeaths | internal/ui/models.go:1022-1025 | 15% of the deaths, truncated |
| Legacy.ClutchWins | internal/ui/models.go:1027-1035 | 2 iff K/D > 1.5, 0 iff K/D <= 1.0, else 1 |
| Legacy.ClutchWinsMonotone | internal/ui/models.go:1027-1035 | non-decreasing in K/D |
| Legacy.EntryFrags | internal/ui/models.go:1037-1040 | 30% of the kills, truncated |
| Legacy.FlashAssists | internal/ui/models.go:1042-1045 | 40% of the assists, truncated |
| Legacy.UtilityDamage | internal/ui/models.go:1047-1050 | 25 per assist |
| Legacy.ExtractPlayerTeamScore | internal/ui/models.go:1052-1061 | exactly the untrimmed first part parsed when it parses, and 0 otherwise; a dash-free score is one part |
| Legacy.ExtractEnemyTeamScore | internal/ui/models.go:1063-1072 | exactly the untrimmed second part parsed when there are two parts and it parses, and 0 otherwise; 0 without a dash |
| Legacy.ExtractScoresRoundTrip | internal/ui/models.go:1052-1072 | "A-B" is read back as A and B, and a lone "A" as A and 0 |
| Legacy.NoTrimming | internal/ui/models.go:1052-1072 | "16 - 14" yields 0 and 0 |
| Legacy.ConsistencyScore | internal/ui/models.go:1076-1086 | every band in both directions, with strict lower thresholds: 0.9 iff K/D > 1.5, 0.7 iff 1.0 < K/D <= 1.5, 0.5 iff 0.8 < K/D <= 1.0, 0.3 iff K/D <= 0.8 |
| Legacy.ConsistencyMonotone | internal/ui/models.go:1076-1086 | non-decreasing in K/D |
| Legacy.ImpactScore | internal/ui/models.go:1088-1092 | (0.6 kills + 0.4 assists) / 20 |
| Legacy.ClutchScore | internal/ui/models.go:1094-1102 | 0.8 iff a win above K/D 1.2, above 0.4 iff a win |
| Legacy.EntryScore | internal/ui/models.go:1104-1108 | a tenth of the entry frags |
| Legacy.SupportScore | internal/ui/models.go:1110-1114 | (assists + flash assists) / 15 |
| Legacy.GetDetailedMatchStats | internal/ui/models.go:937-993 | "match not found" iff no loaded match has the id; otherwise the older detail of the first match with it |
| TtlCache.Lookup | internal/cache/cache.go:55-65 | a value is reported iff its key is present and not expired, and it is the stored value |
| TtlCache.IsExpired | internal/cache/cache.go:19-21 | expired iff the clock is strictly after the expiry time |
| TtlCache.Live | internal/cache/cache.go:89-94 | exactly the unexpired entries, unchanged |
| TtlCache.SetThenGet | internal/cache/cache.go:44-65 | after Set at t, Get returns the value exactly while now <= t + ttl |
| TtlCache.SetKeepsOthers | internal/cache/cache.go:44-52 | Set leaves every other key's answer unchanged |
| TtlCache.DeleteThenGet | internal/cache/cache.go:68-73 | Delete makes the key absent and leaves every other key's answer unchanged |
| TtlCache.SweepInvisible | internal/cache/cache.go:84-97 | the sweep never changes what Get reports, then or later |
| TtlCache.Cache.constructor | internal/cache/cache.go:31-41 | an empty cache with the given lifetime |
| TtlCache.Cache.Set | internal/cache/cache.go:44-52 | stores or replaces the entry with expiry now + ttl; nothing else changes |
| TtlCache.Cache.Get | internal/cache/cache.go:55-65 | the value iff present and now <= expiry; never-set keys give nothing |
| TtlCache.Cache.Delete | internal/cache/cache.go:68-73 | removes that key only |
| TtlCache.Cache.Clear | internal/cache/cache.go:76-81 | removes every entry |
| TtlCache.Cache.Sweep | internal/cache/cache.go:84-97 | deletes exactly the entries expired at now |
| TtlCache.PlayerMatchesKey | internal/cache/cache.go:100-102 | "matches:" + player + ":" + game + ":" + limit |
| TtlCache.PlayerProfileKey | internal/cache/cache.go:105-107 | "profile:" + nickname |
| TtlCache.PlayerStatsKey | internal/cache/cache.go:110-112 | "stats:" + player + ":" + game |
| TtlCache.MatchStatsKey | internal/cache/cache.go:115-117 | "match_stats:" + match id |
| TtlCache.KeyKindsDisjoint | internal/cache/cache.go:100-117 | keys of different kinds never coincide, whatever identifiers each is built from |
| TtlCache.ProfileKeyInjective | internal/cache/cache.go:105-107 | a profile key determines the nickname |
| TtlCache.StatsKeyInjective | internal/cache/cache.go:110-112 | a statistics key determines player and game when player IDs hold no colon |
| TtlCache.KeyExamples | internal/cache/cache_test.go:103-131 | the documented profile, statistics and match-statistics key shapes |
| TtlCache.MatchesKeyExample | internal/cache/cache_test.go:103-131 | the documented recent-matches key shape, with the limit written in decimal |
| TtlCache.TagDecides | internal/cache/cache.go:142-247 | a key's prefix decides the variant of the value stored under it |
| TtlCache.CachedRepository.constructor | internal/cache/cache.go:134-139 | an empty cache with the configured lifetime |
| TtlCache.CachedRepository.GetPlayerByNickname | internal/cache/cache.go:142-162 | a live entry is returned without calling the repository; a miss calls it and stores the answer only when it is not an error |
| TtlCache.CachedRepository.GetPlayerStats | internal/cache/cache.go:165-185 | the same read-through rule for statistics |
| TtlCache.CachedRepository.GetPlayerRecentMatches | internal/cache/cache.go:188-208 | the same read-through rule for recent matches, keyed by the limit too |
| TtlCache.CachedRepository.GetMatchStats | internal/cache/cache.go:227-247 | the same read-through rule for match statistics |
| TtlCache.CachedRepository.ClearCache | internal/cache/cache.go:211-213 | the cache is emptied |
| TtlCache.CachedRepository.GetCacheStats | internal/cache/cache.go:216-224 | the number of stored entries and the lifetime |
| Repository.GetPlayerByNickname | internal/repository/faceit.go:72-155 | an empty nickname, a failed search (wrapped) and no hit give their errors; an Ok answer is the first hit's profile, a successful lookup of the first hit is always returned, and a failed lookup gives "get player: " and its error |
| Repository.GetPlayerStats | internal/repository/faceit.go:162-184 | empty player or game ids are errors before any fetch; Ok exactly when the fetch succeeds, with its value; a fetch error becomes "get player stats: " and its error |
| Repository.EffectiveLimit | internal/repository/faceit.go:199-201 | a limit <= 0 becomes 5 |
| Repository.DefaultFirstRequest | internal/repository/faceit.go:199-220 | with a limit <= 0 the first request asks for 5 matches at offset 0 |
| Repository.RequestsShape | internal/repository/faceit.go:209-244 | request k asks for min(100, limit - collected) at offset = collected so far |
| Repository.CollectBound | internal/repository/faceit.go:209-244 | if pages never exceed the request, at most limit items are collected |
| Repository.GetPlayerRecentMatches | internal/repository/faceit.go:192-249 | empty ids are errors with no request; otherwise exactly the specified requests are made and the result summarises the collected pages in order, each item with some team the scan can report, or wraps the first error |
| Repository.Download | internal/repository/faceit.go:205-248 | the pagination loop makes exactly the specified requests and stops on an error, an empty page or a short page; on success the result summarises every collected item, in order, each with some team the scan can report |
| Repository.OnTrackFull | internal/repository/faceit.go:239-243 | a full page advances the offset by the page length |
| Repository.OnTrackLast | internal/repository/faceit.go:228-237 | an empty or short page ends the collection |
| Repository.FindPlayerTeam | internal/repository/faceit.go:260-276 | a team holding the player, or "" only when no non-empty team holds it |
| Repository.ResultOf | internal/repository/faceit.go:279-284 | "Win" iff results exist and name the player's team as winner, else "Loss" |
| Repository.ScoreString | internal/repository/faceit.go:286-305 | "" without scores |
| Repository.ScoreStringParts | internal/repository/faceit.go:286-305 | for any number of teams with non-negative scores, splitting at the dashes gives each team's score in ascending team-ID order |
| Repository.TwoTeamScore | internal/repository/faceit.go:286-305 | two teams give the score of the team whose ID sorts first, "-", the other |
| Repository.KDRatioMeaning | internal/repository/faceit.go:430-434 | with deaths, K/D times deaths is the kills; K/D is 0 iff there are no kills |
| Repository.KDRatio | internal/repository/faceit.go:430-434 | without deaths, the kills when positive, else 0 |
| Repository.HeadshotPercentage | internal/repository/faceit.go:435-437 | 0 without kills |
| Repository.HeadshotPercentageMeaning | internal/repository/faceit.go:435-437 | with kills, the percentage is the headshot share of the kills |
| Repository.MapNameOf | internal/repository/faceit.go:441-455 | a specific game mode is kept; a generic one ("5v5" or empty) is replaced by the first round's map when there is one; any other result is the game mode |
| Repository.SummaryWith | internal/repository/faceit.go:460-473 | keeps id and time; "Win" iff the player's team won; no statistics give zero counts |
| Repository.ProcessMatches | internal/repository/faceit.go:252-477 | one summary per history item, in input order, each built with some team the scan over the item's teams can report |
| Repository.SummarizesAppend | internal/repository/faceit.go:235-240 | appending pages appends their summaries |
| Repository.SummarizesForget | internal/repository/faceit.go:252-477 | summaries made with recorded teams are summaries made with some team the scan can report |
| Repository.ReplaceSeparator | internal/repository/faceit.go:559-563 | never longer than its input |
| Repository.ReplaceSeparatorNoSlash | internal/repository/faceit.go:559-563 | text without a slash is unchanged |
| Repository.ReplaceSeparatorJoins | internal/repository/faceit.go:559-563 | "A / B" becomes "A-B" for slash-free A and B |
| Repository.GetMatchStats | internal/repository/faceit.go:480-566 | an empty id is an error; an unknown match gives the "match not found" error; a found match always gives Ok with its id, time and status; without statistics the map is "Unknown" and the score "N/A"; with statistics the map is the first round's or "Unknown", and the score the first round's with " / " replaced by "-", or "0-0" |
| ScoreFlow.GetMatchStatsScore | internal/repository/faceit.go:548-573 | a first-round score "x / y" becomes "x-y" in GetMatchStats' result, which the detail screen reads back as x and y |
| ScoreFlow.MatchStatsScoreReadBack | internal/repository/faceit.go:559-563 | "x / y" reaches the detail screen as x and y |
| ScoreFlow.HistoryScoreReadBack | internal/repository/faceit.go:286-305 | the detail screen's player-team score is the score of the team whose ID sorts first, whichever team the player is on |
| Config.Load | internal/config/config.go:34-133 | an error iff FACEIT_API_KEY is empty or unset, with its message; otherwise the key and default player as given |
| Config.PositiveSetting | internal/config/config.go:58-91 | always positive; differs from the default only when the text parses to that value |
| Config.PositiveSettingReadsValue | internal/config/config.go:58-91 | a positive value written in decimal is taken |
| Config.PositiveSettingFallsBack | internal/config/config.go:58-91 | the default iff the text does not parse, parses to <= 0, or parses to the default |
| Config.Brokers | internal/config/config.go:47-50 | never empty; no piece holds a comma |
| Config.BrokersMeaning | internal/config/config.go:47-50 | the default broker exactly for "" (or the default itself); otherwise the pieces join back to the value |
| Config.LoadNumericSettings | internal/config/config.go:58-91 | the four numeric settings are positive, with 10, 100, 30 and 20 when unset |
| Config.LoadSwitches | internal/config/config.go:46-94 | four switches are on only for exactly "true"; logging to stdout is off only for exactly "false" |
| Config.LoadDefaults | internal/config/config.go:34-133 | an environment with only the API key loads every default |
| Config.LoadTextSettings | internal/config/config.go:41-111 | each text setting is its variable, or its default when empty; brokers join back to the variable |
| Logger.ParseLogLevel | internal/logger/logger.go:216-229 | a level other than Info comes from its own name or "warning", lower-cased |
| Logger.ParseName | internal/logger/logger.go:19-24 | each level's name parses back to it |
| Logger.ParseLogLevelCases | internal/logger/logger.go:216-229 | debug, warn/warning and error select their levels; everything else, including "", selects Info |
| Logger.ParseIgnoresCase | internal/logger/logger.go:217 | ASCII upper- or lower-casing the text does not change the level |
| Logger.ParseExamples | internal/logger/logger_test.go:12-21 | "DEBUG", "ERROR", "Warning", "" and "verbose" |

## Left out

- Rendering: the views, styles, K/D charts, streak and profile frames, and comparison formatting. This is styled output, not logic.
- The clipboard, and the `load*` commands with their asynchronous API calls and timeouts. A transition returns only a tag naming the load it starts.
- Locking, the cleanup goroutine and its ticker, and the wall clock. The clock is the parameter `now`, an integer instant.
- The FACEIT client itself: player search, player details, history pages and match statistics. These are function parameters.
- The per-round summation over dynamic stat maps in `processMatches`: a match's totals arrive as one `RoundTotals` value or none.
- `extractLifetimeStats`, the logger's Kafka path, telemetry, YAML configuration and `main`.
- Floating point: `float64` is `real`. The estimators' `int(x*c)` truncates toward zero exactly, not bit for bit.
- Screens.EditBuffer: backspace drops the last character, where Go drops the last byte; this matters only for non-ASCII input. Only one-byte key names are typed into a buffer, as in the source.
- GoStrings.ToLower: ASCII case mapping only, and likewise GoStrings.ToUpper. Go's Unicode mapping also turns a few non-ASCII letters into ASCII ones; for example "WARNİNG" selects Warn in Go and Info here.
- Logger.ParseIgnoresCase: stated for ASCII case mapping only. Under Go's Unicode mapping "warnıng" (dotless ı) upper-cases to "WARNING", which selects Warn, while "warnıng" itself selects Info.
- Screens.HandleKey: the comparison screens are routed to their handlers in `internal/ui/updates.go`. The dispatcher at internal/ui/models.go:157-180 does not list them; the dispatcher that does is not part of this model.
- Legacy: the older `addToRecentPlayers` (internal/ui/models.go:328-342) is the same code as the newer one and is modelled once, by Stats.AddToRecentPlayers. The older key handlers other than `updateMatches` are not modelled separately.
- Repository.GetPlayerRecentMatches: the `int32` conversions of batch size and offset are not modelled; offsets beyond 2^31 - 1 would wrap in Go.
- Repository.GetMatchStats: only the header is modelled (id check, match lookup, map, score and status). The team and player statistics are left out.
- Repository.GetPlayerByNickname: the per-game details are copied from the API's player record, which is a function parameter here.
- Repository.KDRatio: the quotient facts are stated by Repository.KDRatioMeaning, not in the function's own contract.
- TtlCache.Cache.Set: `time.Add` overflow is not modelled, because instants are unbounded integers.
- TtlCache.CachedRepository: the cache stores typed values, so Go's failing type assertion after a hit is unreachable; `Valid` states why.
