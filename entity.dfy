/** The records the core passes around: one player's result in one match and a player profile. */
module Entity {
  /** One player's performance in one finished match, newest matches first in every list. */
  datatype MatchSummary = MatchSummary(
    matchID: string,
    mapName: string,              // map name, "" when unknown
    finishedAt: int,          // UNIX seconds, 0 when unknown
    score: string,            // "A-B", "" when unknown
    kills: int,
    deaths: int,
    assists: int,
    kdRatio: real,            // 0 when it could not be computed
    headshotsPercentage: real,
    adr: real,                // average damage per round, 0 when unknown
    result: string            // "Win" or "Loss"
  )

  datatype GameDetail = GameDetail(elo: int, skillLevel: int, region: string)

  datatype PlayerProfile = PlayerProfile(
    id: string,
    nickname: string,
    country: string,
    avatar: string,
    faceitURL: string,
    games: map<string, GameDetail>
  )

  /** Lifetime statistics of a player for one game; the dynamic stat maps are not modelled. */
  datatype PlayerStats = PlayerStats(gameID: string, playerID: string)

  /** The header of a match's detailed statistics; team and player lists are not modelled. */
  datatype MatchStats = MatchStats(matchID: string, mapName: string, finishedAt: int, score: string, result: string)
}
