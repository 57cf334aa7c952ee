/**
 * Reading the lineup back from the solved program: the loop over `model.variables()` and the
 * dictionary `solve_lineup` returns.
 */
module Extraction {
  import opened Wrappers
  import opened Seqs
  import opened Players
  import opened Types
  import opened Formulation

  /** The two families of variables: "Players_<id>" and "Turbo_<id>". */
  datatype VarKind = Selection | TurboPick

  datatype Variable = Variable(kind: VarKind, id: PlayerID)

  /** The pool's ids in the order of their variable names. */
  function PoolOrder(pool: Pool): seq<PlayerID>
  {
    Filter(PlayersByName, pool.Keys)
  }

  /** One variable of the given family per id. */
  function Family(kind: VarKind, xs: seq<PlayerID>): seq<Variable>
  {
    if xs == [] then [] else [Variable(kind, xs[0])] + Family(kind, xs[1..])
  }

  /**
   * `model.variables()`, which the solver library sorts by name: every "Players_" variable comes
   * before every "Turbo_" variable, and within a family the ids are in name order.
   */
  function ModelVariables(pool: Pool): seq<Variable>
  {
    Family(Selection, PoolOrder(pool)) + Family(TurboPick, PoolOrder(pool))
  }

  /** `v.varValue > 0` in the assignment `a`. */
  predicate Positive(a: Assignment, v: Variable)
  {
    match v.kind
    case Selection => v.id in a.selected
    case TurboPick => v.id in a.turbo
  }

  /** The dictionary `solve_lineup` returns. */
  datatype Lineup = Lineup(drivers: seq<DriverID>, team: ConstructorID, turbo: Option<DriverID>, cost: real, score: real)

  function DriverPlayers(ds: seq<DriverID>): seq<PlayerID>
  {
    if ds == [] then [] else [Driver(ds[0])] + DriverPlayers(ds[1..])
  }

  /** `drivers + [constructor]`. */
  function Team(l: Lineup): seq<PlayerID>
  {
    DriverPlayers(l.drivers) + [Constructor(l.team)]
  }

  // ---------------------------------------------------------------------------------------------
  // The three loop variables after the loop has visited the variables `vs`.

  /** `drivers`: the drivers of positive "Players_DriverID" variables, in visiting order. */
  function ListedDrivers(vs: seq<Variable>, a: Assignment): seq<DriverID>
  {
    if vs == [] then []
    else
      var v := vs[|vs| - 1];
      ListedDrivers(vs[..|vs| - 1], a) + (if Positive(a, v) && v.id.Driver? && v.kind == Selection then [v.id.driver] else [])
  }

  /** `constructor`: the constructor of the last positive variable whose name holds "ConstructorID". */
  function LastConstructor(vs: seq<Variable>, a: Assignment): Option<ConstructorID>
  {
    if vs == [] then None
    else
      var v := vs[|vs| - 1];
      if Positive(a, v) && v.id.Constructor? then Some(v.id.team) else LastConstructor(vs[..|vs| - 1], a)
  }

  /** `turbo`: the driver of the last positive "Turbo_DriverID" variable. */
  function LastTurbo(vs: seq<Variable>, a: Assignment): Option<DriverID>
  {
    if vs == [] then None
    else
      var v := vs[|vs| - 1];
      if Positive(a, v) && v.id.Driver? && v.kind == TurboPick then Some(v.id.driver) else LastTurbo(vs[..|vs| - 1], a)
  }

  /** Every variable of the program belongs to a pool entry. */
  lemma {:induction false} FamilyIds(kind: VarKind, xs: seq<PlayerID>, v: Variable)
    ensures v in Family(kind, xs) <==> v.kind == kind && v.id in xs
  {
    if xs != [] {
      FamilyIds(kind, xs[1..], v);
      assert xs == [xs[0]] + xs[1..];
    }
  }

  lemma ModelVariablesInPool(pool: Pool, v: Variable)
    requires v in ModelVariables(pool)
    ensures v.id in pool
  {
    FamilyIds(Selection, PoolOrder(pool), v);
    FamilyIds(TurboPick, PoolOrder(pool), v);
    FilterMembers(PlayersByName, pool.Keys, v.id);
  }

  /** A driver is listed exactly when its "Players" variable is visited and positive. */
  lemma {:induction false} ListedDriversMembers(vs: seq<Variable>, a: Assignment, d: DriverID)
    ensures d in ListedDrivers(vs, a) <==> Variable(Selection, Driver(d)) in vs && Driver(d) in a.selected
  {
    if vs != [] {
      var init := vs[..|vs| - 1];
      ListedDriversMembers(init, a, d);
      assert vs == init + [vs[|vs| - 1]];
    }
  }

  /** A constructor is found only from a visited positive variable of that constructor. */
  lemma {:induction false} LastConstructorFound(vs: seq<Variable>, a: Assignment)
    requires LastConstructor(vs, a).Some?
    ensures exists v | v in vs :: Positive(a, v) && v.id == Constructor(LastConstructor(vs, a).value)
  {
    var v := vs[|vs| - 1];
    if !(Positive(a, v) && v.id.Constructor?) {
      var init := vs[..|vs| - 1];
      LastConstructorFound(init, a);
      var w :| w in init && Positive(a, w) && w.id == Constructor(LastConstructor(init, a).value);
      assert w in vs;
    }
  }

  /** The team of an extracted lineup consists of pool entries. */
  lemma TeamInPool(pool: Pool, a: Assignment, ds: seq<DriverID>, c: ConstructorID)
    requires ds == ListedDrivers(ModelVariables(pool), a)
    requires LastConstructor(ModelVariables(pool), a) == Some(c)
    ensures forall x <- DriverPlayers(ds) + [Constructor(c)] :: x in pool
  {
    var vs := ModelVariables(pool);
    forall x | x in DriverPlayers(ds) + [Constructor(c)] ensures x in pool {
      if x == Constructor(c) {
        LastConstructorFound(vs, a);
        var v :| v in vs && Positive(a, v) && v.id == Constructor(c);
        ModelVariablesInPool(pool, v);
      } else {
        DriverPlayersMembers(ds, x);
        ListedDriversMembers(vs, a, x.driver);
        ModelVariablesInPool(pool, Variable(Selection, x));
      }
    }
  }

  lemma {:induction false} DriverPlayersMembers(ds: seq<DriverID>, x: PlayerID)
    ensures x in DriverPlayers(ds) <==> x.Driver? && x.driver in ds
  {
    if ds != [] {
      DriverPlayersMembers(ds[1..], x);
      assert ds == [ds[0]] + ds[1..];
    }
  }

  /**
   * What `solve_lineup` returns for the solver's assignment `a`: the lineup, or the `KeyError`
   * that `players[None]` raises when no constructor variable is positive.
   */
  function Extracted(pool: Pool, a: Assignment): Result<Lineup, Error>
  {
    var vs := ModelVariables(pool);
    var drivers := ListedDrivers(vs, a);
    match LastConstructor(vs, a)
    case None => Err(NoConstructor)
    case Some(c) =>
      TeamInPool(pool, a, drivers, c);
      var team := DriverPlayers(drivers) + [Constructor(c)];
      Ok(Lineup(drivers, c, LastTurbo(vs, a), Total(pool, CostOf, team), Total(pool, ScoreOf, team)))
  }

  /** The extraction loop and the result dictionary. */
  method ExtractLineup(pool: Pool, a: Assignment) returns (r: Result<Lineup, Error>)
    ensures r == Extracted(pool, a)
  {
    var vs := ModelVariables(pool);
    var drivers: seq<DriverID> := [];
    var turbo: Option<DriverID> := None;
    var found: Option<ConstructorID> := None;
    for i := 0 to |vs|
      invariant drivers == ListedDrivers(vs[..i], a)
      invariant turbo == LastTurbo(vs[..i], a)
      invariant found == LastConstructor(vs[..i], a)
    {
      var v := vs[i];
      assert vs[..i + 1][..i] == vs[..i];
      if Positive(a, v) {
        if v.id.Constructor? {
          found := Some(v.id.team);
        } else if v.kind == TurboPick {
          turbo := Some(v.id.driver);
        } else {
          drivers := drivers + [v.id.driver];
        }
      }
    }
    assert vs[..|vs|] == vs;
    if found.None? {
      return Err(NoConstructor);
    }
    var c := found.value;
    TeamInPool(pool, a, drivers, c);
    var team := DriverPlayers(drivers) + [Constructor(c)];
    r := Ok(Lineup(drivers, c, turbo, Total(pool, CostOf, team), Total(pool, ScoreOf, team)));
  }
}
