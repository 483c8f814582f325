/** Fixed configuration values of the bot (environment overrides are not modelled). */
module Constants {
  const DefaultRatingMu: real := 1500.0
  const DefaultRatingSigma: real := 350.0

  const MinPlayersForTeams: int := 1
  const MaxPlayersPerMatch: int := 24
  const DefaultNumTeams: int := 3

  /** Up to this many players form a single team. */
  const SingleTeamThreshold: int := 4
  /** Exactly this many players are split 2:3. */
  const TwoTeamThreshold: int := 5
}
