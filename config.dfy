/** The shared constants of mm.common.Config. */
module Config {

  const MIN_RANK: int := 0
  const MAX_RANK: int := 9

  /** The rank of a freshly registered account (a double in the source). */
  const INITIAL_RANK: real := 0.0

  const TEAM_SIZE: nat := 5
  const LOBBY_SIZE: nat := 2 * TEAM_SIZE

  const NUM_HEROES: nat := 30

  /** Number of matchmaking buckets (Matchmaker.NUM_BUCKETS). */
  const NUM_BUCKETS: nat := MAX_RANK - MIN_RANK
}
