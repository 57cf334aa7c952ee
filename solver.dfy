/**
 * `solve_lineup` end to end (model building, the solver call, the extraction) and
 * `solve_top_lineups`, the loop that asks for the next best lineup again and again, excluding the
 * teams already found.
 */
module Solver {
  import opened Wrappers
  import opened Seqs
  import opened Players
  import opened Types
  import opened Config
  import opened Formulation
  import opened Extraction
  import opened LineupFacts

  /** `l` is what `solve_lineup` reads from an optimal solution of the program for `excl`. */
  ghost predicate SolvedFrom(pool: Pool, s: Settings, excl: Option<seq<seq<PlayerID>>>, l: Lineup)
  {
    IsOptimum(pool, s, excl, AssignmentOf(l)) && Extracted(pool, AssignmentOf(l)) == Ok(l)
  }

  /**
   * `solve_lineup`: the first missing key raises `KeyError`; an infeasible program fails the
   * status assertion; otherwise the lineup is read from an optimal solution.
   */
  method SolveLineup(pool: Pool, s: Settings, excl: Option<seq<seq<PlayerID>>>) returns (r: Result<Lineup, Error>)
    requires WellFormedPool(pool)
    ensures FirstMissing(pool, Lookups(s, excl)).Some? ==> r == Err(KeyError(FirstMissing(pool, Lookups(s, excl)).value))
    ensures FirstMissing(pool, Lookups(s, excl)).None? ==> r.Ok? || r == Err(NotOptimal)
    ensures FirstMissing(pool, Lookups(s, excl)).None? ==> (r.Err? <==> forall b :: !Feasible(pool, s, excl, b))
    ensures r.Ok? ==> SolvedFrom(pool, s, excl, r.value)
  {
    var missing := FirstMissing(pool, Lookups(s, excl));
    if missing.Some? {
      return Err(KeyError(missing.value));
    }
    var solution := Solve(pool, s, excl);
    if solution.None? {
      return Err(NotOptimal);
    }
    var a := solution.value;
    ExtractFeasible(pool, s, excl, a);
    r := ExtractLineup(pool, a);
  }

  /**
   * The guarantees of a lineup `solve_lineup` returns: five distinct drivers and a constructor,
   * the cost within the budget and equal to the sum over the team, the overrides and the excluded
   * solutions honoured, teammates apart unless allowed, and the turbo rule kept. Its objective is
   * its score with the turbo player's score added again, and no lineup of the same program has a
   * higher one.
   */
  lemma SolvedLineupRules(pool: Pool, s: Settings, excl: Option<seq<seq<PlayerID>>>, l: Lineup)
    requires WellFormedPool(pool) && SolvedFrom(pool, s, excl, l)
    ensures |l.drivers| == 5 && Distinct(l.drivers)
    ensures l.cost == LinearSum(pool, CostOf, TeamSet(l), PlayersByName) <= s.budget
    ensures l.score == LinearSum(pool, ScoreOf, TeamSet(l), PlayersByName)
    ensures !s.allowTeammates ==> forall c :: !(Teammates(c).0 in l.drivers && Teammates(c).1 in l.drivers)
    ensures forall p <- OrEmpty(s.includeOverride) :: p in Team(l)
    ensures forall p <- OrEmpty(s.excludeOverride) :: p !in Team(l)
    ensures forall sol <- OrEmpty(excl) :: CountSelected(sol, TeamSet(l)) <= 5
    ensures TurboHolder(l) in Team(l)
    ensures s.turboOverride.Some? ==> TurboHolder(l) == s.turboOverride.value
    ensures s.turboOverride.None? ==>
              l.turbo.Some? && l.turbo.value in l.drivers && Driver(l.turbo.value) in pool
              && pool[Driver(l.turbo.value)].cost < TurboDriverThreshold
              && Driver(l.turbo.value) !in OrEmpty(s.noTurboOverride)
    ensures TurboHolder(l) in pool && Objective(pool, AssignmentOf(l)) == l.score + pool[TurboHolder(l)].score
    ensures forall b :: Feasible(pool, s, excl, b) ==> Objective(pool, b) <= l.score + pool[TurboHolder(l)].score
  {
    var a := AssignmentOf(l);
    ExtractFeasible(pool, s, excl, a);
    ExtractedLineupRules(pool, s, excl, a);
    ExtractedTurbo(pool, s, excl, a);
  }

  // ---------------------------------------------------------------------------------------------
  // The top-N loop.

  /** `solution["drivers"] + [solution["constructor"]]` for every earlier solution. */
  function TeamsOf(ls: seq<Lineup>): seq<seq<PlayerID>>
  {
    seq(|ls|, i requires 0 <= i < |ls| => Team(ls[i]))
  }

  /** The `exclude_solutions` argument of the next call: `None` while nothing has been found. */
  function ExclusionsOf(ls: seq<Lineup>): Option<seq<seq<PlayerID>>>
  {
    if ls == [] then None else Some(TeamsOf(ls))
  }

  /** Every lineup was solved against the teams of all the lineups before it. */
  ghost predicate Ranked(pool: Pool, s: Settings, ls: seq<Lineup>)
  {
    forall i | 0 <= i < |ls| :: SolvedFrom(pool, s, ExclusionsOf(ls[..i]), ls[i])
  }

  /**
   * `solve_top_lineups`: `n` lineups (none when `n` is not positive), each solved against the
   * teams of the earlier ones. A failing call aborts the whole loop; `found` holds the lineups
   * found before it.
   */
  method SolveTopLineups(n: int, pool: Pool, s: Settings) returns (r: Result<seq<Lineup>, Error>, ghost found: seq<Lineup>)
    requires WellFormedPool(pool)
    ensures Ranked(pool, s, found)
    ensures r.Ok? ==> r.value == found && |found| == (if n < 0 then 0 else n)
    ensures r.Err? ==> |found| < n
    ensures r.Err? && r.error.KeyError? <==> n > 0 && FirstMissing(pool, SettingsLookups(s)).Some?
    ensures r.Err? && r.error.KeyError? ==> found == [] && r.error == KeyError(FirstMissing(pool, SettingsLookups(s)).value)
    ensures r.Err? && !r.error.KeyError? ==>
              r.error == NotOptimal && forall b :: !Feasible(pool, s, ExclusionsOf(found), b)
  {
    var count := if n < 0 then 0 else n;
    var solutions: seq<Lineup> := [];
    for i := 0 to count
      invariant |solutions| == i
      invariant Ranked(pool, s, solutions)
      invariant i > 0 ==> FirstMissing(pool, SettingsLookups(s)).None?
    {
      var excl: Option<seq<seq<PlayerID>>> := None;
      if solutions != [] {
        var teams := ExclusionList(solutions);
        excl := Some(teams);
      }
      assert excl == ExclusionsOf(solutions);
      RankedLookups(pool, s, solutions);
      var x := SolveLineup(pool, s, excl);
      if x.Err? {
        return Err(x.error), solutions;
      }
      RankedSnoc(pool, s, solutions, x.value);
      solutions := solutions + [x.value];
    }
    r, found := Ok(solutions), solutions;
  }

  /** The inner loop that rebuilds `exclude_solutions` from the solutions found so far. */
  method ExclusionList(solutions: seq<Lineup>) returns (teams: seq<seq<PlayerID>>)
    ensures teams == TeamsOf(solutions)
  {
    teams := [];
    for j := 0 to |solutions|
      invariant teams == TeamsOf(solutions[..j])
    {
      assert solutions[..j + 1][..j] == solutions[..j];
      teams := teams + [Team(solutions[j])];
    }
    assert solutions[..|solutions|] == solutions;
  }

  lemma RankedSnoc(pool: Pool, s: Settings, ls: seq<Lineup>, l: Lineup)
    requires Ranked(pool, s, ls) && SolvedFrom(pool, s, ExclusionsOf(ls), l)
    ensures Ranked(pool, s, ls + [l])
  {
    var ls' := ls + [l];
    forall i | 0 <= i < |ls'| ensures SolvedFrom(pool, s, ExclusionsOf(ls'[..i]), ls'[i]) {
      if i < |ls| {
        assert ls'[..i] == ls[..i];
      } else {
        assert ls'[..i] == ls;
      }
    }
  }

  // ---------------------------------------------------------------------------------------------
  // What the ranking guarantees.

  /** A lineup found by the loop has five distinct drivers and a team from the pool. */
  lemma RankedShape(pool: Pool, s: Settings, ls: seq<Lineup>, i: nat)
    requires WellFormedPool(pool) && Ranked(pool, s, ls) && i < |ls|
    ensures |ls[i].drivers| == 5 && Distinct(ls[i].drivers)
    ensures TeamSet(ls[i]) <= pool.Keys
  {
    var l := ls[i];
    assert SolvedFrom(pool, s, ExclusionsOf(ls[..i]), l);
    ExtractFeasible(pool, s, ExclusionsOf(ls[..i]), AssignmentOf(l));
  }

  /** The teams of earlier solutions only name pool entries, so the later calls raise no `KeyError` of their own. */
  lemma RankedLookups(pool: Pool, s: Settings, ls: seq<Lineup>)
    requires WellFormedPool(pool) && Ranked(pool, s, ls)
    ensures FirstMissing(pool, Lookups(s, ExclusionsOf(ls))) == FirstMissing(pool, SettingsLookups(s))
  {
    var teams := OrEmpty(ExclusionsOf(ls));
    forall x | x in Flatten(teams) ensures x in pool {
      var k := FlattenMember(teams, x);
      RankedShape(pool, s, ls, k);
      assert x in TeamSet(ls[k]);
    }
    FirstMissingAppend(pool, SettingsLookups(s), Flatten(teams));
  }

  lemma {:induction false} FlattenMember(xss: seq<seq<PlayerID>>, x: PlayerID) returns (k: nat)
    requires x in Flatten(xss)
    ensures k < |xss| && x in xss[k]
  {
    if x in xss[0] {
      k := 0;
    } else {
      k := FlattenMember(xss[1..], x);
      k := k + 1;
    }
  }

  /** Keys found in the pool after the first missing one change nothing. */
  lemma {:induction false} FirstMissingAppend(pool: Pool, xs: seq<PlayerID>, ys: seq<PlayerID>)
    requires forall y <- ys :: y in pool
    ensures FirstMissing(pool, xs + ys) == FirstMissing(pool, xs)
  {
    if xs == [] {
      assert xs + ys == ys;
    } else {
      assert (xs + ys)[1..] == xs[1..] + ys;
      FirstMissingAppend(pool, xs[1..], ys);
    }
  }

  /** The number of selected positions of a list without repeats is the size of its selected part. */
  lemma {:induction false} CountDistinct(xs: seq<PlayerID>, S: set<PlayerID>)
    requires Distinct(xs)
    ensures CountSelected(xs, S) == |Elems(xs) * S|
  {
    if xs != [] {
      var rest := xs[1..];
      DistinctTail(xs);
      CountDistinct(rest, S);
      var head, tail := {xs[0]} * S, Elems(rest) * S;
      assert Elems(xs) * S == head + tail;
      assert head * tail == {};
      if xs[0] in S {
        assert head == {xs[0]};
      } else {
        assert head == {};
      }
    }
  }

  /** A team of five drivers and a constructor has six players, none twice. */
  lemma TeamDistinct(l: Lineup)
    requires |l.drivers| == 5 && Distinct(l.drivers)
    ensures |Team(l)| == 6 && Distinct(Team(l)) && |TeamSet(l)| == 6
  {
    DriverPlayersIndex(l.drivers);
    var t := Team(l);
    forall i, j | 0 <= i < j < |t| ensures t[i] != t[j] {
      if j < 5 {
        assert t[i] == Driver(l.drivers[i]) && t[j] == Driver(l.drivers[j]);
      } else {
        assert t[i].Driver? && t[j].Constructor?;
      }
    }
    DistinctCard(t);
  }

  /** A selection of the right shape has six players. */
  lemma ShapeSize(S: set<PlayerID>)
    ensures |S| == |DriversIn(S)| + |ConstructorsIn(S)|
  {
    assert S == DriversIn(S) + ConstructorsIn(S);
    assert DriversIn(S) * ConstructorsIn(S) == {};
  }

  /**
   * For a selection of five drivers and a constructor, the exclusion constraint of a found team
   * is violated exactly by that team itself.
   */
  lemma TeamExcluded(l: Lineup, S: set<PlayerID>)
    requires |l.drivers| == 5 && Distinct(l.drivers)
    requires |DriversIn(S)| == 5 && |ConstructorsIn(S)| == 1
    ensures CountSelected(Team(l), S) <= 5 <==> S != TeamSet(l)
  {
    var T := TeamSet(l);
    TeamDistinct(l);
    CountDistinct(Team(l), S);
    ShapeSize(S);
    if S == T {
      assert T * S == T;
    } else if |T * S| > 5 {
      SubsetCard(T * S, T);
      assert T <= S;
      SubsetCard(T, S);
    }
  }

  /**
   * Against the teams of earlier lineups, an assignment is feasible exactly when it is feasible
   * without them and selects none of those teams.
   */
  lemma ExclusionsMeaning(pool: Pool, s: Settings, ls: seq<Lineup>, b: Assignment)
    requires forall i | 0 <= i < |ls| :: |ls[i].drivers| == 5 && Distinct(ls[i].drivers)
    ensures Feasible(pool, s, ExclusionsOf(ls), b) <==>
              Feasible(pool, s, None, b) && forall i | 0 <= i < |ls| :: b.selected != TeamSet(ls[i])
  {
    var teams := OrEmpty(ExclusionsOf(ls));
    assert |teams| == |ls|;
    if RightShape(b) {
      forall i | 0 <= i < |ls| ensures CountSelected(teams[i], b.selected) <= 5 <==> b.selected != TeamSet(ls[i]) {
        TeamExcluded(ls[i], b.selected);
      }
    }
  }

  /** The loop never returns the same team twice. */
  lemma RankedDistinct(pool: Pool, s: Settings, ls: seq<Lineup>)
    requires WellFormedPool(pool) && Ranked(pool, s, ls)
    ensures forall i, j | 0 <= i < j < |ls| :: TeamSet(ls[i]) != TeamSet(ls[j])
  {
    forall i, j | 0 <= i < j < |ls| ensures TeamSet(ls[i]) != TeamSet(ls[j]) {
      var before := ls[..j];
      forall k | 0 <= k < |before| ensures |before[k].drivers| == 5 && Distinct(before[k].drivers) {
        RankedShape(pool, s, ls, k);
      }
      assert SolvedFrom(pool, s, ExclusionsOf(before), ls[j]);
      ExclusionsMeaning(pool, s, before, AssignmentOf(ls[j]));
      assert before[i] == ls[i];
    }
  }

  /** Each call's constraints include the previous call's, so its feasible assignments are among them. */
  lemma FeasibleShrinks(pool: Pool, s: Settings, ls: seq<Lineup>, i: nat, j: nat, b: Assignment)
    requires WellFormedPool(pool) && Ranked(pool, s, ls) && i <= j <= |ls|
    requires Feasible(pool, s, ExclusionsOf(ls[..j]), b)
    ensures Feasible(pool, s, ExclusionsOf(ls[..i]), b)
  {
    forall k | 0 <= k < j ensures |ls[k].drivers| == 5 && Distinct(ls[k].drivers) {
      RankedShape(pool, s, ls, k);
    }
    ExclusionsMeaning(pool, s, ls[..j], b);
    ExclusionsMeaning(pool, s, ls[..i], b);
    forall k | 0 <= k < i ensures b.selected != TeamSet(ls[..i][k]) {
      assert ls[..i][k] == ls[..j][k];
    }
  }

  /** The objective of a lineup as `solve_lineup` reports it: the score, with the turbo player's counted twice. */
  function Boosted(pool: Pool, l: Lineup): real
    requires TurboHolder(l) in pool
  {
    l.score + pool[TurboHolder(l)].score
  }

  /**
   * The objective never increases along the ranking. The reported `score`, which leaves the turbo
   * doubling out, is not ordered by this.
   */
  lemma RankedObjectives(pool: Pool, s: Settings, ls: seq<Lineup>)
    requires WellFormedPool(pool) && Ranked(pool, s, ls)
    ensures forall i, j | 0 <= i < j < |ls| :: Objective(pool, AssignmentOf(ls[j])) <= Objective(pool, AssignmentOf(ls[i]))
    ensures forall i | 0 <= i < |ls| :: TurboHolder(ls[i]) in pool && Boosted(pool, ls[i]) == Objective(pool, AssignmentOf(ls[i]))
  {
    forall i, j | 0 <= i < j < |ls| ensures Objective(pool, AssignmentOf(ls[j])) <= Objective(pool, AssignmentOf(ls[i])) {
      assert SolvedFrom(pool, s, ExclusionsOf(ls[..j]), ls[j]);
      assert SolvedFrom(pool, s, ExclusionsOf(ls[..i]), ls[i]);
      FeasibleShrinks(pool, s, ls, i, j, AssignmentOf(ls[j]));
    }
    forall i | 0 <= i < |ls| ensures TurboHolder(ls[i]) in pool && Boosted(pool, ls[i]) == Objective(pool, AssignmentOf(ls[i])) {
      assert SolvedFrom(pool, s, ExclusionsOf(ls[..i]), ls[i]);
      SolvedLineupRules(pool, s, ExclusionsOf(ls[..i]), ls[i]);
    }
  }

  /**
   * When the loop stops on an infeasible program, the lineups it found are all there are: every
   * feasible team of the original program is one of them.
   */
  lemma RankedExhausts(pool: Pool, s: Settings, ls: seq<Lineup>)
    requires WellFormedPool(pool) && Ranked(pool, s, ls)
    requires forall b :: !Feasible(pool, s, ExclusionsOf(ls), b)
    ensures forall b :: Feasible(pool, s, None, b) ==> exists i | 0 <= i < |ls| :: b.selected == TeamSet(ls[i])
  {
    forall k | 0 <= k < |ls| ensures |ls[k].drivers| == 5 && Distinct(ls[k].drivers) {
      RankedShape(pool, s, ls, k);
    }
    forall b | Feasible(pool, s, None, b) ensures exists i | 0 <= i < |ls| :: b.selected == TeamSet(ls[i]) {
      ExclusionsMeaning(pool, s, ls, b);
    }
  }
}
