/**
 * How a score string travels from the repository to the match-detail screen.
 *
 * The repository writes a score in two ways: `processMatches` joins the team
 * scores in ascending team-ID order with "-", and `GetMatchStats` rewrites the
 * API's "A / B" as "A-B". The detail screen reads the string back with
 * `extractPlayerTeamScore` and `extractEnemyTeamScore`. The lemmas here connect
 * the writers to the readers.
 */
module ScoreFlow {
  import opened Base
  import opened GoStrings
  import opened Entity
  import Repository
  import Screens

  /** The decimal text of a score that is not negative holds no slash. */
  lemma ItoaNoSlash(n: int)
    requires n >= 0
    ensures '/' !in Itoa(n)
  {
    var s := Itoa(n);
    forall i | 0 <= i < |s| ensures s[i] != '/' {
      assert IsDigit(s[i]);
    }
  }

  /** A match-statistics score "x / y" reaches the detail screen as x for the player's
      team and y for the enemy team. */
  lemma {:induction false} MatchStatsScoreReadBack(x: int, y: int)
    requires 0 <= x <= MaxInt64 && 0 <= y <= MaxInt64
    ensures Screens.ExtractPlayerTeamScore(Repository.ReplaceSeparator(Itoa(x) + " / " + Itoa(y))) == x
    ensures Screens.ExtractEnemyTeamScore(Repository.ReplaceSeparator(Itoa(x) + " / " + Itoa(y))) == y
  {
    ItoaNoSlash(x);
    ItoaNoSlash(y);
    Repository.ReplaceSeparatorJoins(Itoa(x), Itoa(y));
    Screens.ExtractScoresRoundTrip(x, y);
  }

  /** A match whose first round reports the score "x / y" gets the score "x-y" from
      GetMatchStats, which the detail screen reads back as x and y. */
  lemma {:induction false} GetMatchStatsScore(matchID: string, getMatch: string -> Result<Repository.MatchInfo>,
                                              getStats: string -> Result<Option<Repository.FirstRound>>,
                                              mapValue: Option<string>, x: int, y: int)
    requires matchID != "" && getMatch(matchID).Ok?
    requires 0 <= x <= MaxInt64 && 0 <= y <= MaxInt64
    requires getStats(matchID) == Ok(Some(Repository.FirstRound(mapValue, Some(Itoa(x) + " / " + Itoa(y)))))
    ensures Repository.GetMatchStats(matchID, getMatch, getStats).Ok?
    ensures Repository.GetMatchStats(matchID, getMatch, getStats).value.score == Itoa(x) + "-" + Itoa(y)
    ensures Screens.ExtractPlayerTeamScore(Repository.GetMatchStats(matchID, getMatch, getStats).value.score) == x
    ensures Screens.ExtractEnemyTeamScore(Repository.GetMatchStats(matchID, getMatch, getStats).value.score) == y
  {
    ItoaNoSlash(x);
    ItoaNoSlash(y);
    Repository.ReplaceSeparatorJoins(Itoa(x), Itoa(y));
    MatchStatsScoreReadBack(x, y);
  }

  /** For a two-team match, the detail screen's "player team score" is the score of the team
      whose ID sorts first, and its "enemy team score" the other one, whichever team the
      player is on: the summary's score does not depend on the player's team. */
  lemma {:induction false} HistoryScoreReadBack(item: Repository.HistoryItem, team: string,
                                                fetched: Option<Repository.RoundTotals>,
                                                a: string, b: string, x: int, y: int)
    requires a != b && StrLe(a, b)
    requires 0 <= x <= MaxInt64 && 0 <= y <= MaxInt64
    requires item.results.Some? && item.results.value.score == map[a := x, b := y]
    ensures Screens.ExtractPlayerTeamScore(Repository.SummaryWith(item, team, fetched).score) == x
    ensures Screens.ExtractEnemyTeamScore(Repository.SummaryWith(item, team, fetched).score) == y
  {
    var results := item.results;
    assert results == Some(Repository.MatchResults(results.value.winner, map[a := x, b := y]));
    Repository.TwoTeamScore(results.value.winner, a, b, x, y);
    Screens.ExtractScoresRoundTrip(x, y);
  }
}
