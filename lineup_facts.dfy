/**
 * What the extraction loop reads back from a feasible assignment: the lineup it returns lists
 * exactly the selected players, and its cost and score are the program's linear expressions.
 */
module LineupFacts {
  import opened Wrappers
  import opened Seqs
  import opened Players
  import opened Types
  import opened Config
  import opened Formulation
  import opened Extraction

  // ---------------------------------------------------------------------------------------------
  // The loop variables over a concatenation of variable lists.

  lemma {:induction false} ListedDriversAppend(us: seq<Variable>, vs: seq<Variable>, a: Assignment)
    ensures ListedDrivers(us + vs, a) == ListedDrivers(us, a) + ListedDrivers(vs, a)
  {
    if vs == [] {
      assert us + vs == us;
    } else {
      assert (us + vs)[..|us + vs| - 1] == us + vs[..|vs| - 1];
      ListedDriversAppend(us, vs[..|vs| - 1], a);
    }
  }

  lemma {:induction false} LastConstructorAppend(us: seq<Variable>, vs: seq<Variable>, a: Assignment)
    ensures LastConstructor(us + vs, a) == if LastConstructor(vs, a).Some? then LastConstructor(vs, a) else LastConstructor(us, a)
  {
    if vs == [] {
      assert us + vs == us;
    } else {
      assert (us + vs)[..|us + vs| - 1] == us + vs[..|vs| - 1];
      LastConstructorAppend(us, vs[..|vs| - 1], a);
    }
  }

  lemma {:induction false} LastTurboAppend(us: seq<Variable>, vs: seq<Variable>, a: Assignment)
    ensures LastTurbo(us + vs, a) == if LastTurbo(vs, a).Some? then LastTurbo(vs, a) else LastTurbo(us, a)
  {
    if vs == [] {
      assert us + vs == us;
    } else {
      assert (us + vs)[..|us + vs| - 1] == us + vs[..|vs| - 1];
      LastTurboAppend(us, vs[..|vs| - 1], a);
    }
  }

  lemma DriverPlayersAppend(ds: seq<DriverID>, es: seq<DriverID>)
    ensures DriverPlayers(ds + es) == DriverPlayers(ds) + DriverPlayers(es)
  {
    if ds == [] {
      assert ds + es == es;
    } else {
      assert (ds + es)[1..] == ds[1..] + es;
      DriverPlayersAppend(ds[1..], es);
    }
  }

  // ---------------------------------------------------------------------------------------------
  // The loop variables over one family of variables.

  /** The set whose members have a positive variable of the family. */
  function PositiveSet(a: Assignment, kind: VarKind): set<PlayerID>
  {
    match kind
    case Selection => a.selected
    case TurboPick => a.turbo
  }

  /** The "Players" family lists the selected drivers in the order of `xs`. */
  lemma {:induction false} ListedSelection(xs: seq<PlayerID>, a: Assignment)
    ensures DriverPlayers(ListedDrivers(Family(Selection, xs), a)) == Filter(xs, DriversIn(a.selected))
  {
    if xs != [] {
      var v := Variable(Selection, xs[0]);
      ListedDriversAppend([v], Family(Selection, xs[1..]), a);
      assert [v][..0] == [];
      ListedSelection(xs[1..], a);
      var head := if xs[0] in a.selected && xs[0].Driver? then [xs[0].driver] else [];
      DriverPlayersAppend(head, ListedDrivers(Family(Selection, xs[1..]), a));
      assert head != [] ==> DriverPlayers(head) == [xs[0]] by {
        if head != [] { assert head[1..] == []; }
      }
    }
  }

  /** The "Turbo" family lists no driver. */
  lemma {:induction false} ListedTurboNone(xs: seq<PlayerID>, a: Assignment)
    ensures ListedDrivers(Family(TurboPick, xs), a) == []
  {
    if xs != [] {
      var v := Variable(TurboPick, xs[0]);
      ListedDriversAppend([v], Family(TurboPick, xs[1..]), a);
      assert [v][..0] == [];
      ListedTurboNone(xs[1..], a);
    }
  }

  /** When `c` is the only constructor of the family's positive set, the family finds `c`, if it visits it. */
  lemma {:induction false} FoundInFamily(kind: VarKind, xs: seq<PlayerID>, a: Assignment, c: ConstructorID)
    requires forall x <- xs :: x in PositiveSet(a, kind) && x.Constructor? ==> x.team == c
    ensures LastConstructor(Family(kind, xs), a) ==
              if Constructor(c) in xs && Constructor(c) in PositiveSet(a, kind) then Some(c) else None
  {
    if xs != [] {
      var v := Variable(kind, xs[0]);
      LastConstructorAppend([v], Family(kind, xs[1..]), a);
      assert [v][..0] == [];
      assert forall x <- xs[1..] :: x in xs;
      FoundInFamily(kind, xs[1..], a, c);
      assert xs == [xs[0]] + xs[1..];
    }
  }

  /** When `d` is the only driver with a positive turbo variable, the turbo family finds `d`, if it visits it. */
  lemma {:induction false} TurboInFamily(xs: seq<PlayerID>, a: Assignment, d: DriverID)
    requires forall x <- xs :: x in a.turbo && x.Driver? ==> x.driver == d
    ensures LastTurbo(Family(TurboPick, xs), a) == if Driver(d) in xs && Driver(d) in a.turbo then Some(d) else None
  {
    if xs != [] {
      var v := Variable(TurboPick, xs[0]);
      LastTurboAppend([v], Family(TurboPick, xs[1..]), a);
      assert [v][..0] == [];
      assert forall x <- xs[1..] :: x in xs;
      TurboInFamily(xs[1..], a, d);
      assert xs == [xs[0]] + xs[1..];
    }
  }

  /** The "Players" family sets no turbo driver. */
  lemma {:induction false} SelectionSetsNoTurbo(xs: seq<PlayerID>, a: Assignment)
    ensures LastTurbo(Family(Selection, xs), a) == None
  {
    if xs != [] {
      var v := Variable(Selection, xs[0]);
      LastTurboAppend([v], Family(Selection, xs[1..]), a);
      assert [v][..0] == [];
      SelectionSetsNoTurbo(xs[1..], a);
    }
  }

  // ---------------------------------------------------------------------------------------------
  // Sums.

  lemma {:induction false} TotalAppend(pool: Pool, m: Measure, xs: seq<PlayerID>, ys: seq<PlayerID>)
    requires forall x <- xs :: x in pool
    requires forall y <- ys :: y in pool
    ensures forall z <- xs + ys :: z in pool
    ensures Total(pool, m, xs + ys) == Total(pool, m, xs) + Total(pool, m, ys)
  {
    if xs == [] {
      assert xs + ys == ys;
    } else {
      assert (xs + ys)[1..] == xs[1..] + ys;
      assert forall x <- xs[1..] :: x in xs;
      TotalAppend(pool, m, xs[1..], ys);
    }
  }

  /** A linear expression over 0/1 values is the plain sum over the players whose value is 1. */
  lemma {:induction false} LinearSumIsTotal(pool: Pool, m: Measure, S: set<PlayerID>, xs: seq<PlayerID>)
    requires S <= pool.Keys
    ensures forall x <- Filter(xs, S) :: x in pool
    ensures LinearSum(pool, m, S, xs) == Total(pool, m, Filter(xs, S))
  {
    forall x | x in Filter(xs, S) ensures x in pool {
      FilterMembers(xs, S, x);
    }
    if xs != [] {
      LinearSumIsTotal(pool, m, S, xs[1..]);
      var head := if xs[0] in S then [xs[0]] else [];
      TotalAppend(pool, m, head, Filter(xs[1..], S));
      assert head != [] ==> Total(pool, m, head) == Weight(pool[xs[0]], m) by {
        if head != [] { assert head[1..] == []; }
      }
    }
  }

  /** The objective is the selected players' scores plus the turbo players' scores. */
  lemma {:induction false} ObjectiveSplits(pool: Pool, a: Assignment, xs: seq<PlayerID>)
    ensures ObjectiveSum(pool, a, xs) == LinearSum(pool, ScoreOf, a.selected, xs) + LinearSum(pool, ScoreOf, a.turbo, xs)
  {
    if xs != [] {
      ObjectiveSplits(pool, a, xs[1..]);
    }
  }

  // ---------------------------------------------------------------------------------------------
  // The assignment behind a lineup.

  /** The players of the lineup's team. */
  function TeamSet(l: Lineup): set<PlayerID>
  {
    Elems(Team(l))
  }

  /**
   * The player whose turbo variable was 1: the turbo driver, or, when a constructor was forced as
   * turbo (the loop then reads it as the constructor and leaves `turbo` unset), the constructor.
   */
  function TurboHolder(l: Lineup): PlayerID
  {
    match l.turbo
    case Some(d) => Driver(d)
    case None => Constructor(l.team)
  }

  /** The solver assignment a lineup was read from. */
  function AssignmentOf(l: Lineup): Assignment
  {
    Assignment(TeamSet(l), {TurboHolder(l)})
  }

  lemma SingleMember(S: set<PlayerID>) returns (x: PlayerID)
    requires |S| == 1
    ensures S == {x}
  {
    x :| x in S;
    assert |S - {x}| == 0;
  }

  lemma {:induction false} DriverPlayersIndex(ds: seq<DriverID>)
    ensures |DriverPlayers(ds)| == |ds|
    ensures forall i | 0 <= i < |ds| :: DriverPlayers(ds)[i] == Driver(ds[i])
  {
    if ds != [] {
      DriverPlayersIndex(ds[1..]);
    }
  }

  /** In a feasible assignment the turbo is a selected driver, or the one selected constructor. */
  lemma TurboCases(pool: Pool, s: Settings, excl: Option<seq<seq<PlayerID>>>, a: Assignment, c: ConstructorID, t: PlayerID)
    requires WellFormedPool(pool) && Feasible(pool, s, excl, a)
    requires ConstructorsIn(a.selected) == {Constructor(c)} && a.turbo == {t}
    ensures t in a.selected
    ensures t.Constructor? ==> t == Constructor(c) && s.turboOverride == Some(t)
  {
    match s.turboOverride {
      case Some(t0) =>
        assert t0 == t;
        if t.Constructor? {
          assert t in ConstructorsIn(a.selected);
        }
      case None =>
        assert t in pool;
    }
  }

  /** A list of constructors followed by a list of drivers, filtered by a set with the one constructor `c`. */
  lemma FilterHalves(C: seq<PlayerID>, D: seq<PlayerID>, S: set<PlayerID>, c: ConstructorID)
    requires forall x <- C :: x.Constructor?
    requires forall x <- D :: x.Driver?
    requires Distinct(C) && Constructor(c) in C
    requires ConstructorsIn(S) == {Constructor(c)}
    ensures Filter(C + D, S) == [Constructor(c)] + Filter(C + D, DriversIn(S))
  {
    FilterAppend(C, D, S);
    FilterAppend(C, D, DriversIn(S));
    FilterSame(D, S, DriversIn(S));
    FilterNone(C, DriversIn(S));
    forall y | y in C && y in S ensures y == Constructor(c) {
      assert y in ConstructorsIn(S);
    }
    assert Constructor(c) in S;
    FilterSingle(C, S, Constructor(c));
  }

  /** The name-sorted players, split into the constructors and the drivers. */
  lemma NameOrderHalves(S: set<PlayerID>, c: ConstructorID)
    requires ConstructorsIn(S) == {Constructor(c)}
    ensures Filter(PlayersByName, S) == [Constructor(c)] + Filter(PlayersByName, DriversIn(S))
  {
    var P := PlayersByName;
    var C, D := P[..10], P[10..];
    assert P == C + D;
    PlayersByNameSplits();
    PlayersByNameEnumerates();
    assert Distinct(C) by {
      forall i, j | 0 <= i < j < |C| ensures C[i] != C[j] {
        assert C[i] == P[i] && C[j] == P[j];
      }
    }
    assert Constructor(c) in C by {
      var k := NameRank(Constructor(c));
      NameRankIndexes(Constructor(c));
      ConstructorsRankFirst(Constructor(c));
      assert C[k] == P[k];
    }
    assert forall x <- C :: x.Constructor?;
    assert forall x <- D :: x.Driver?;
    FilterHalves(C, D, S, c);
  }

  /** Every pool entry has its variables in the program. */
  lemma InPoolOrder(pool: Pool, p: PlayerID)
    ensures p in PoolOrder(pool) <==> p in pool
  {
    NameRankIndexes(p);
    FilterMembers(PlayersByName, pool.Keys, p);
  }

  /** The drivers the loop lists from a feasible assignment, in name order. */
  lemma DriversReadFeasible(pool: Pool, a: Assignment)
    requires Binary(pool, a)
    ensures DriverPlayers(ListedDrivers(ModelVariables(pool), a)) == Filter(PlayersByName, DriversIn(a.selected))
  {
    var x := PoolOrder(pool);
    var sels, turbos := Family(Selection, x), Family(TurboPick, x);
    ListedDriversAppend(sels, turbos, a);
    ListedTurboNone(x, a);
    assert ListedDrivers(sels, a) + [] == ListedDrivers(sels, a);
    ListedSelection(x, a);
    FilterWithin(PlayersByName, pool.Keys, DriversIn(a.selected));
  }

  /** The constructor the loop finds in an assignment with one constructor `c`. */
  lemma ConstructorReadFeasible(pool: Pool, a: Assignment, c: ConstructorID)
    requires Binary(pool, a) && ConstructorsIn(a.selected) == {Constructor(c)}
    requires forall y <- a.turbo :: y.Constructor? ==> y == Constructor(c)
    ensures LastConstructor(ModelVariables(pool), a) == Some(c)
  {
    var x := PoolOrder(pool);
    var sels, turbos := Family(Selection, x), Family(TurboPick, x);
    assert Constructor(c) in a.selected;
    InPoolOrder(pool, Constructor(c));
    LastConstructorAppend(sels, turbos, a);
    forall y | y in x && y in PositiveSet(a, Selection) && y.Constructor? ensures y.team == c {
      assert y in ConstructorsIn(a.selected);
    }
    FoundInFamily(Selection, x, a, c);
    assert LastConstructor(sels, a) == Some(c);
    forall y | y in x && y in PositiveSet(a, TurboPick) && y.Constructor? ensures y.team == c {
    }
    FoundInFamily(TurboPick, x, a, c);
  }

  /** The turbo driver the loop finds in an assignment whose one turbo player is `t`. */
  lemma TurboReadFeasible(pool: Pool, a: Assignment, t: PlayerID)
    requires Binary(pool, a) && a.turbo == {t}
    ensures LastTurbo(ModelVariables(pool), a) == if t.Driver? then Some(t.driver) else None
  {
    var x := PoolOrder(pool);
    var sels, turbos := Family(Selection, x), Family(TurboPick, x);
    var d := if t.Driver? then t.driver else Verstappen;
    InPoolOrder(pool, t);
    LastTurboAppend(sels, turbos, a);
    SelectionSetsNoTurbo(x, a);
    TurboInFamily(x, a, d);
  }

  /**
   * For a feasible assignment of a well-formed pool the extraction succeeds, and the lineup
   * gives the assignment back: the five selected drivers in name order, the one selected
   * constructor, and the turbo player. Its cost and score are the program's sums over the team,
   * and the objective is the score with the turbo player's score added once more.
   */
  lemma ExtractFeasible(pool: Pool, s: Settings, excl: Option<seq<seq<PlayerID>>>, a: Assignment)
    requires WellFormedPool(pool) && Feasible(pool, s, excl, a)
    ensures Extracted(pool, a).Ok?
    ensures var l := Extracted(pool, a).value;
      && AssignmentOf(l) == a
      && DriverPlayers(l.drivers) == Filter(PlayersByName, DriversIn(a.selected))
      && |l.drivers| == 5 && Distinct(l.drivers)
      && l.cost == LinearSum(pool, CostOf, a.selected, PlayersByName)
      && l.score == LinearSum(pool, ScoreOf, a.selected, PlayersByName)
      && TurboHolder(l) in pool
      && Objective(pool, a) == l.score + pool[TurboHolder(l)].score
  {
    var c0 := SingleMember(ConstructorsIn(a.selected));
    var c := c0.team;
    var t := SingleMember(a.turbo);
    TurboCases(pool, s, excl, a, c, t);
    DriversReadFeasible(pool, a);
    ConstructorReadFeasible(pool, a, c);
    TurboReadFeasible(pool, a, t);
    var l := Extracted(pool, a).value;
    assert l.team == c;
    assert TurboHolder(l) == t;
    var ds := Filter(PlayersByName, DriversIn(a.selected));
    assert DriverPlayers(l.drivers) == ds;
    PlayersByNameEnumerates();
    DriverSequence(PlayersByName, a.selected, l.drivers);
    TeamIsSelection(a.selected, c, l);
    LineupSums(pool, a, l, c, t);
  }

  /** The drivers read back are five distinct drivers. */
  lemma DriverSequence(xs: seq<PlayerID>, S: set<PlayerID>, ds: seq<DriverID>)
    requires Distinct(xs) && forall p :: p in xs
    requires |DriversIn(S)| == 5
    requires DriverPlayers(ds) == Filter(xs, DriversIn(S))
    ensures |ds| == 5 && Distinct(ds)
    ensures forall x :: x in DriverPlayers(ds) <==> x in DriversIn(S)
  {
    var f := DriverPlayers(ds);
    FilterDistinct(xs, DriversIn(S));
    forall x ensures x in f <==> x in DriversIn(S) {
      FilterMembers(xs, DriversIn(S), x);
    }
    assert Elems(f) == DriversIn(S);
    DistinctCard(f);
    DriverPlayersIndex(ds);
    forall i, j | 0 <= i < j < |ds| ensures ds[i] != ds[j] {
      assert f[i] == Driver(ds[i]) && f[j] == Driver(ds[j]);
    }
  }

  /** The team read back is the selected set. */
  lemma TeamIsSelection(S: set<PlayerID>, c: ConstructorID, l: Lineup)
    requires ConstructorsIn(S) == {Constructor(c)} && l.team == c
    requires forall x :: x in DriverPlayers(l.drivers) <==> x in DriversIn(S)
    ensures TeamSet(l) == S
  {
    forall x ensures x in TeamSet(l) <==> x in S {
      assert x in Team(l) <==> x in DriverPlayers(l.drivers) || x == Constructor(c);
      if x.Constructor? {
        assert x in S <==> x in ConstructorsIn(S);
      } else {
        assert x in S <==> x in DriversIn(S);
      }
    }
  }

  /** The reported cost and score are the program's sums, and the objective adds the turbo's score. */
  lemma LineupSums(pool: Pool, a: Assignment, l: Lineup, c: ConstructorID, t: PlayerID)
    requires Binary(pool, a)
    requires ConstructorsIn(a.selected) == {Constructor(c)} && a.turbo == {t}
    requires l.team == c && DriverPlayers(l.drivers) == Filter(PlayersByName, DriversIn(a.selected))
    requires forall x <- Team(l) :: x in pool
    requires l.cost == Total(pool, CostOf, Team(l)) && l.score == Total(pool, ScoreOf, Team(l))
    ensures l.cost == LinearSum(pool, CostOf, a.selected, PlayersByName)
    ensures l.score == LinearSum(pool, ScoreOf, a.selected, PlayersByName)
    ensures t in pool && Objective(pool, a) == l.score + pool[t].score
  {
    NameOrderHalves(a.selected, c);
    var ds := DriverPlayers(l.drivers);
    var C := [Constructor(c)];
    assert forall x <- ds :: x in pool;
    assert Constructor(c) in pool;
    forall m ensures LinearSum(pool, m, a.selected, PlayersByName) == Total(pool, m, Team(l)) {
      LinearSumIsTotal(pool, m, a.selected, PlayersByName);
      TotalAppend(pool, m, C, ds);
      TotalAppend(pool, m, ds, C);
    }
    ObjectiveSplits(pool, a, PlayersByName);
    NameRankIndexes(t);
    PlayersByNameEnumerates();
    FilterSingle(PlayersByName, a.turbo, t);
    LinearSumIsTotal(pool, ScoreOf, a.turbo, PlayersByName);
    assert Total(pool, ScoreOf, [t]) == pool[t].score;
  }

  /**
   * The guarantees of a lineup read from a feasible assignment, in the lineup's own terms: its
   * cost is within the budget, teammates are apart unless allowed, the overrides are honoured,
   * the turbo follows the turbo rule, and no excluded solution is matched in all its places.
   */
  lemma ExtractedLineupRules(pool: Pool, s: Settings, excl: Option<seq<seq<PlayerID>>>, a: Assignment)
    requires WellFormedPool(pool) && Feasible(pool, s, excl, a)
    ensures Extracted(pool, a).Ok?
    ensures var l := Extracted(pool, a).value;
      && l.cost <= s.budget
      && (!s.allowTeammates ==> forall c :: !(Teammates(c).0 in l.drivers && Teammates(c).1 in l.drivers))
      && (forall p <- OrEmpty(s.includeOverride) :: p in Team(l))
      && (forall p <- OrEmpty(s.excludeOverride) :: p !in Team(l))
      && (forall sol <- OrEmpty(excl) :: CountSelected(sol, TeamSet(l)) <= 5)
  {
    ExtractFeasible(pool, s, excl, a);
    var l := Extracted(pool, a).value;
    assert TeamSet(l) == a.selected;
    if !s.allowTeammates {
      AllConstructorsEnumerates();
      forall c ensures !(Teammates(c).0 in l.drivers && Teammates(c).1 in l.drivers) {
        DriverPlayersMembers(l.drivers, Driver(Teammates(c).0));
        DriverPlayersMembers(l.drivers, Driver(Teammates(c).1));
      }
    }
  }

  /**
   * The turbo of a lineup read from a feasible assignment. With a turbo override that player
   * holds the turbo and is on the team, whatever its cost; a constructor named as turbo leaves
   * the lineup's `turbo` unset. Without one, the turbo is one of the five drivers, cheaper than
   * the threshold and not listed as "no turbo".
   */
  lemma ExtractedTurbo(pool: Pool, s: Settings, excl: Option<seq<seq<PlayerID>>>, a: Assignment)
    requires WellFormedPool(pool) && Feasible(pool, s, excl, a)
    ensures Extracted(pool, a).Ok?
    ensures var l := Extracted(pool, a).value;
      && TurboHolder(l) in Team(l)
      && (l.turbo.None? ==> s.turboOverride == Some(Constructor(l.team)))
      && (s.turboOverride.Some? ==> TurboHolder(l) == s.turboOverride.value)
      && (s.turboOverride.None? ==>
            l.turbo.Some? && l.turbo.value in l.drivers && Driver(l.turbo.value) in pool
            && pool[Driver(l.turbo.value)].cost < TurboDriverThreshold
            && Driver(l.turbo.value) !in OrEmpty(s.noTurboOverride))
  {
    ExtractFeasible(pool, s, excl, a);
    var l := Extracted(pool, a).value;
    var t := TurboHolder(l);
    assert a.turbo == {t} && a.selected == TeamSet(l);
    var c0 := SingleMember(ConstructorsIn(a.selected));
    TurboCases(pool, s, excl, a, c0.team, t);
    if s.turboOverride.None? {
      assert t in pool;
      DriverPlayersMembers(l.drivers, t);
    }
  }
}
