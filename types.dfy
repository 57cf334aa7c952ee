/** The value shapes exchanged between the model assembler and the solver. */
module Types {
  import opened Players

  /** A selectable entity with its score and its cost. */
  datatype Player = Player(id: PlayerID, score: real, cost: real)

  /** The four kinds of user override. */
  datatype Override = Include | Exclude | Turbo | NoTurbo

  datatype PlayerOverride = PlayerOverride(id: PlayerID, override: Override)

  /** A driver's expected score, as the request supplies it. */
  datatype DriverScore = DriverScore(id: DriverID, score: real)

  /** The player pool: a dictionary from player id to player. */
  type Pool = map<PlayerID, Player>

  /** The exceptions the core raises. */
  datatype Error =
    | KeyError(key: PlayerID)        // a dictionary lookup of an id that is not a key
    | MultipleTurboDrivers           // "Cannot specify multiple turbo drivers"
    | NotOptimal                     // `assert model.status == 1` failed: the solver found no optimum
    | NoConstructor                  // `players[None]`: extraction found no constructor variable set
}
