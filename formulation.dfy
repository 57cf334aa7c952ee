/**
 * The integer program `solve_lineup` hands to the solver: one 0/1 "Players" variable and one 0/1
 * "Turbo" variable per pool entry, the objective, the constraints, and the solver call itself,
 * which is modelled as an oracle that returns an optimal assignment whenever one exists.
 */
module Formulation {
  import opened Wrappers
  import opened Seqs
  import opened Players
  import opened Types
  import opened Config

  /** The keyword arguments of `solve_lineup` other than the pool and the excluded solutions. */
  datatype Settings = Settings(
    budget: real,
    allowTeammates: bool,
    includeOverride: Option<seq<PlayerID>>,
    excludeOverride: Option<seq<PlayerID>>,
    noTurboOverride: Option<seq<PlayerID>>,
    turboOverride: Option<PlayerID>)

  /**
   * Values for the two families of 0/1 variables: the players whose "Players" variable is 1 and
   * the players whose "Turbo" variable is 1.
   */
  datatype Assignment = Assignment(selected: set<PlayerID>, turbo: set<PlayerID>)

  /** Every entry of the pool is stored under its own id. */
  predicate WellFormedPool(pool: Pool)
  {
    forall p | p in pool :: pool[p].id == p
  }

  /** The variables exist only for pool entries. */
  predicate Binary(pool: Pool, a: Assignment)
  {
    a.selected <= pool.Keys && a.turbo <= pool.Keys
  }

  // ---------------------------------------------------------------------------------------------
  // Dictionary lookups made while the constraints are built, in the order they are made.

  /** `team_vars[teammate1]`, `team_vars[teammate2]` for every pair of the driver table. */
  function TeammateLookups(cs: seq<ConstructorID>): seq<PlayerID>
  {
    if cs == [] then [] else [Driver(Teammates(cs[0]).0), Driver(Teammates(cs[0]).1)] + TeammateLookups(cs[1..])
  }

  /** The ids of the excluded solutions, one solution after the other. */
  function Flatten(xss: seq<seq<PlayerID>>): seq<PlayerID>
  {
    if xss == [] then [] else xss[0] + Flatten(xss[1..])
  }

  /** The keys looked up for the teammate, override and turbo constraints, in the order of the source. */
  function SettingsLookups(s: Settings): seq<PlayerID>
  {
    (if s.allowTeammates then [] else TeammateLookups(AllConstructors))
    + OrEmpty(s.includeOverride)
    + OrEmpty(s.excludeOverride)
    + (match s.turboOverride case Some(t) => [t] case None => [])
  }

  /** Every key the model building looks up: the settings' keys, then the excluded solutions'. */
  function Lookups(s: Settings, excl: Option<seq<seq<PlayerID>>>): seq<PlayerID>
  {
    SettingsLookups(s) + Flatten(OrEmpty(excl))
  }

  /** The first key of `ks` that is not in the pool: the key of the `KeyError` that is raised. */
  function FirstMissing(pool: Pool, ks: seq<PlayerID>): (r: Option<PlayerID>)
    ensures r.None? <==> forall k <- ks :: k in pool
    ensures r.Some? ==> exists i | 0 <= i < |ks| :: ks[i] == r.value && r.value !in pool && forall j | 0 <= j < i :: ks[j] in pool
  {
    if ks == [] then None
    else if ks[0] !in pool then Some(ks[0])
    else
      var r := FirstMissing(pool, ks[1..]);
      assert forall k <- ks :: k == ks[0] || k in ks[1..];
      if r.Some? then
        var i :| 0 <= i < |ks[1..]| && ks[1..][i] == r.value && r.value !in pool && forall j | 0 <= j < i :: ks[1..][j] in pool;
        assert ks[i + 1] == r.value;
        assert forall j | 0 <= j < i + 1 :: ks[j] in pool by {
          forall j | 0 <= j < i + 1 ensures ks[j] in pool {
            if j > 0 { assert ks[j] == ks[1..][j - 1]; }
          }
        }
        r
      else r
  }

  // ---------------------------------------------------------------------------------------------
  // Linear expressions.

  /** Which attribute of a player a sum adds up. */
  datatype Measure = CostOf | ScoreOf

  function Weight(p: Player, m: Measure): real
  {
    match m
    case CostOf => p.cost
    case ScoreOf => p.score
  }

  /** `w * x` for a 0/1 variable `x`. */
  function Times(w: real, x: bool): real
  {
    if x then w else 0.0
  }

  /** `lpSum([players[i].m * x[i] for i in xs])`, where `x[i]` is 1 exactly for the members of `S`. */
  function LinearSum(pool: Pool, m: Measure, S: set<PlayerID>, xs: seq<PlayerID>): real
  {
    if xs == [] then 0.0
    else (if xs[0] in pool then Times(Weight(pool[xs[0]], m), xs[0] in S) else 0.0) + LinearSum(pool, m, S, xs[1..])
  }

  /** `sum([players[i].m for i in xs])`. */
  function Total(pool: Pool, m: Measure, xs: seq<PlayerID>): real
    requires forall x <- xs :: x in pool
  {
    if xs == [] then 0.0 else Weight(pool[xs[0]], m) + Total(pool, m, xs[1..])
  }

  /** `players[i].score * (team_vars[i] + turbo_player_vars[i])` summed over `xs`. */
  function ObjectiveSum(pool: Pool, a: Assignment, xs: seq<PlayerID>): real
  {
    if xs == [] then 0.0
    else
      (if xs[0] in pool then Times(pool[xs[0]].score, xs[0] in a.selected) + Times(pool[xs[0]].score, xs[0] in a.turbo) else 0.0)
      + ObjectiveSum(pool, a, xs[1..])
  }

  /** The objective: the team's scores, with the turbo driver's score counted a second time. */
  function Objective(pool: Pool, a: Assignment): real
  {
    ObjectiveSum(pool, a, PlayersByName)
  }

  // ---------------------------------------------------------------------------------------------
  // Constraints.

  function DriversIn(S: set<PlayerID>): set<PlayerID>
  {
    set p | p in S && p.Driver?
  }

  function ConstructorsIn(S: set<PlayerID>): set<PlayerID>
  {
    set p | p in S && p.Constructor?
  }

  /** The total cost is within the budget. */
  predicate WithinBudget(pool: Pool, s: Settings, a: Assignment)
  {
    LinearSum(pool, CostOf, a.selected, PlayersByName) <= s.budget
  }

  /** Five drivers and one constructor. */
  predicate RightShape(a: Assignment)
  {
    |DriversIn(a.selected)| == 5 && |ConstructorsIn(a.selected)| == 1
  }

  /** Unless teammates are allowed, at most one driver of every pair. */
  predicate TeammatesApart(s: Settings, a: Assignment)
  {
    s.allowTeammates ||
    forall c <- AllConstructors :: !(Driver(Teammates(c).0) in a.selected && Driver(Teammates(c).1) in a.selected)
  }

  /** The included ids are selected and the excluded ids are not. */
  predicate OverridesHonoured(s: Settings, a: Assignment)
  {
    (forall p <- OrEmpty(s.includeOverride) :: p in a.selected) &&
    (forall p <- OrEmpty(s.excludeOverride) :: p !in a.selected)
  }

  /** A driver under the threshold that is not listed as "no turbo" may carry the turbo. */
  predicate TurboEligible(pool: Pool, s: Settings, p: PlayerID)
    requires p in pool
  {
    pool[p].id.Driver? && pool[p].cost < TurboDriverThreshold && pool[p].id !in OrEmpty(s.noTurboOverride)
  }

  /**
   * Exactly one turbo variable is 1. With a turbo override, that player carries the turbo and is
   * on the team; otherwise only an eligible player that is on the team may carry it.
   */
  predicate TurboRule(pool: Pool, s: Settings, a: Assignment)
  {
    |a.turbo| == 1 &&
    match s.turboOverride
    case Some(t) => t in a.turbo && t in a.selected
    case None =>
      forall p | p in pool :: if TurboEligible(pool, s, p) then (p in a.turbo ==> p in a.selected) else p !in a.turbo
  }

  /** `lpSum([team_vars[i] for i in solution])`: the selected positions of a solution, repeats counted. */
  function CountSelected(sol: seq<PlayerID>, S: set<PlayerID>): nat
  {
    if sol == [] then 0 else (if sol[0] in S then 1 else 0) + CountSelected(sol[1..], S)
  }

  /** At most five players of every excluded solution are selected again. */
  predicate SolutionsExcluded(excl: Option<seq<seq<PlayerID>>>, a: Assignment)
  {
    forall sol <- OrEmpty(excl) :: CountSelected(sol, a.selected) <= 5
  }

  /** All the constraints of the program. */
  predicate Feasible(pool: Pool, s: Settings, excl: Option<seq<seq<PlayerID>>>, a: Assignment)
  {
    && Binary(pool, a)
    && WithinBudget(pool, s, a)
    && RightShape(a)
    && TeammatesApart(s, a)
    && OverridesHonoured(s, a)
    && TurboRule(pool, s, a)
    && SolutionsExcluded(excl, a)
  }

  // ---------------------------------------------------------------------------------------------
  // The solver.

  /** `a` is feasible and no assignment of the pool's variables scores more. */
  predicate BestAmongVariables(pool: Pool, s: Settings, excl: Option<seq<seq<PlayerID>>>, a: Assignment)
  {
    Feasible(pool, s, excl, a) &&
    forall sel, tur | sel <= pool.Keys && tur <= pool.Keys ::
      Feasible(pool, s, excl, Assignment(sel, tur)) ==> Objective(pool, Assignment(sel, tur)) <= Objective(pool, a)
  }

  /** `a` is an optimal solution of the program. */
  ghost predicate IsOptimum(pool: Pool, s: Settings, excl: Option<seq<seq<PlayerID>>>, a: Assignment)
  {
    Feasible(pool, s, excl, a) &&
    forall b :: Feasible(pool, s, excl, b) ==> Objective(pool, b) <= Objective(pool, a)
  }

  /** A set of assignments that is not empty has one of highest objective. */
  lemma {:induction false} HighestIn(pool: Pool, F: set<Assignment>) returns (m: Assignment)
    requires F != {}
    ensures m in F && forall b | b in F :: Objective(pool, b) <= Objective(pool, m)
    decreases |F|
  {
    var x :| x in F;
    if F == {x} {
      m := x;
    } else {
      var rest := HighestIn(pool, F - {x});
      m := if Objective(pool, x) > Objective(pool, rest) then x else rest;
    }
  }

  /** A program with a feasible assignment has an optimal one: there are finitely many assignments. */
  lemma OptimumExists(pool: Pool, s: Settings, excl: Option<seq<seq<PlayerID>>>, a0: Assignment)
    returns (m: Assignment)
    requires Feasible(pool, s, excl, a0)
    ensures IsOptimum(pool, s, excl, m)
  {
    var K := pool.Keys;
    var F := set sel, tur | sel <= K && tur <= K && Feasible(pool, s, excl, Assignment(sel, tur)) :: Assignment(sel, tur);
    assert a0 == Assignment(a0.selected, a0.turbo);
    assert a0 in F;
    m := HighestIn(pool, F);
    forall b | Feasible(pool, s, excl, b) ensures Objective(pool, b) <= Objective(pool, m) {
      assert b == Assignment(b.selected, b.turbo);
      assert b in F;
    }
  }

  /**
   * `model.solve(...)` followed by `assert model.status == 1`: an optimal assignment when the
   * program is feasible, and `None` (the status is not "Optimal") when it is not. Which optimum
   * the solver returns among several is not specified.
   */
  method Solve(pool: Pool, s: Settings, excl: Option<seq<seq<PlayerID>>>) returns (r: Option<Assignment>)
    ensures r.Some? ==> IsOptimum(pool, s, excl, r.value)
    ensures r.None? <==> forall b :: !Feasible(pool, s, excl, b)
  {
    var K := pool.Keys;
    if sel, tur :| sel <= K && tur <= K && Feasible(pool, s, excl, Assignment(sel, tur)) {
      var m := OptimumExists(pool, s, excl, Assignment(sel, tur));
      assert m.selected <= K && m.turbo <= K;
      assert BestAmongVariables(pool, s, excl, Assignment(m.selected, m.turbo));
      var sel', tur' :| sel' <= K && tur' <= K && BestAmongVariables(pool, s, excl, Assignment(sel', tur'));
      assert BestAmongVariables(pool, s, excl, Assignment(sel', tur'));
      r := Some(Assignment(sel', tur'));
      forall b | Feasible(pool, s, excl, b) ensures Objective(pool, b) <= Objective(pool, r.value) {
        assert b == Assignment(b.selected, b.turbo);
      }
    } else {
      r := None;
      forall b | Feasible(pool, s, excl, b) ensures false {
      }
    }
  }
}
