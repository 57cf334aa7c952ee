/**
 * `optimize_lineup`, the request handler where the two halves meet: it builds the player pool with
 * the model object and passes it to `solve_top_lineups`. A pool built this way is one the solver can
 * take.
 */
module OptimizeLineup {
  import opened Wrappers
  import opened Players
  import opened Types
  import opened ModelSpec
  import opened Formulation

  /** A built pool stores every entry under its own id and has every player of the catalogue. */
  lemma BuiltPoolIsWellFormed(scores: seq<DriverScore>)
    requires PlayerPool(scores).Ok?
    ensures WellFormedPool(PlayerPool(scores).value)
    ensures forall p :: p in PlayerPool(scores).value
  {
    var pool := PlayerPool(scores).value;
    forall p ensures p in pool && pool[p].id == p {
      PoolCoversCatalogue(scores, p);
      PoolIdsMatchKeys(scores, p);
    }
  }

  /** On a built pool no lookup of the model building can fail, whatever the settings. */
  lemma BuiltPoolHasEveryKey(scores: seq<DriverScore>, s: Settings, excl: Option<seq<seq<PlayerID>>>)
    requires PlayerPool(scores).Ok?
    ensures FirstMissing(PlayerPool(scores).value, Lookups(s, excl)).None?
  {
    BuiltPoolIsWellFormed(scores);
  }
}
