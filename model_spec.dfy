/**
 * The model assembler: turns the request's driver scores into the player pool (drivers and the
 * derived constructors) and sorts the request's overrides into the four override fields.
 */
module ModelSpec {
  import opened Wrappers
  import opened Seqs
  import opened Players
  import opened Types
  import opened Config

  /** `Player(i.id, i.score, COSTS[i.id])`: the pool entry of one driver score. */
  function DriverPlayer(s: DriverScore): Player
  {
    Player(Driver(s.id), s.score, Cost(Driver(s.id)))
  }

  /** No later entry of `scores` names the driver of entry `i`. */
  predicate LastOccurrence(scores: seq<DriverScore>, i: nat)
    requires i < |scores|
  {
    forall j | i < j < |scores| :: scores[j].id != scores[i].id
  }

  /** The drivers that have a score in the request. */
  function ScoredDrivers(scores: seq<DriverScore>): set<PlayerID>
  {
    set s | s in scores :: Driver(s.id)
  }

  /** The dictionary comprehension over the driver scores, one entry per score in input order. */
  function DriverPool(scores: seq<DriverScore>): Pool
  {
    if scores == [] then map[]
    else DriverPool(scores[..|scores| - 1])[Driver(scores[|scores| - 1].id) := DriverPlayer(scores[|scores| - 1])]
  }

  /** The comprehension's keys are exactly the drivers of the request. */
  lemma {:induction false} DriverPoolKeys(scores: seq<DriverScore>)
    ensures DriverPool(scores).Keys == ScoredDrivers(scores)
  {
    if scores != [] {
      var init, last := scores[..|scores| - 1], scores[|scores| - 1];
      DriverPoolKeys(init);
      assert scores == init + [last];
      assert ScoredDrivers(scores) == ScoredDrivers(init) + {Driver(last.id)};
    }
  }

  /** A driver listed more than once keeps the entry of its last occurrence. */
  lemma {:induction false} DriverPoolEntry(scores: seq<DriverScore>, i: nat)
    requires i < |scores| && LastOccurrence(scores, i)
    ensures Driver(scores[i].id) in DriverPool(scores)
    ensures DriverPool(scores)[Driver(scores[i].id)] == DriverPlayer(scores[i])
  {
    if i < |scores| - 1 {
      var init := scores[..|scores| - 1];
      assert LastOccurrence(init, i);
      DriverPoolEntry(init, i);
    }
  }

  /** Both drivers of constructor `c` have an entry in `pool`. */
  predicate Scored(pool: Pool, c: ConstructorID)
  {
    Driver(Teammates(c).0) in pool && Driver(Teammates(c).1) in pool
  }

  /** The entry the constructor loop writes for `c`: its drivers' scores added up, its cost from the table. */
  function TeamPlayer(pool: Pool, c: ConstructorID): Player
    requires Scored(pool, c)
  {
    Player(Constructor(c), pool[Driver(Teammates(c).0)].score + pool[Driver(Teammates(c).1)].score,
           Cost(Constructor(c)))
  }

  /** The driver whose lookup raises for `c`: the first one of the pair when it is missing, else the second. */
  function MissingTeammate(pool: Pool, c: ConstructorID): (d: DriverID)
    requires !Scored(pool, c)
    ensures Driver(d) !in pool
    ensures Driver(Teammates(c).0) !in pool ==> d == Teammates(c).0
    ensures Driver(Teammates(c).0) in pool ==> d == Teammates(c).1
  {
    if Driver(Teammates(c).0) !in pool then Teammates(c).0 else Teammates(c).1
  }

  /** The position of the first constructor of `cs` with a missing driver; `|cs|` when there is none. */
  function FirstUnscored(pool: Pool, cs: seq<ConstructorID>): (k: nat)
    ensures k <= |cs|
    ensures forall i | 0 <= i < k :: Scored(pool, cs[i])
    ensures k < |cs| ==> !Scored(pool, cs[k])
  {
    if cs == [] || !Scored(pool, cs[0]) then 0 else 1 + FirstUnscored(pool, cs[1..])
  }

  /** The pool once the constructor loop has written the entries of `cs` in turn. */
  function AddTeams(pool: Pool, cs: seq<ConstructorID>): Pool
    requires forall c <- cs :: Scored(pool, c)
  {
    if cs == [] then pool
    else AddTeams(pool, cs[..|cs| - 1])[Constructor(cs[|cs| - 1]) := TeamPlayer(pool, cs[|cs| - 1])]
  }

  /** The constructor loop adds a key for every constructor it visits and no other key. */
  lemma {:induction false} AddTeamsKeys(pool: Pool, cs: seq<ConstructorID>, p: PlayerID)
    requires forall c <- cs :: Scored(pool, c)
    ensures p in AddTeams(pool, cs) <==> p in pool || (p.Constructor? && p.team in cs)
  {
    if cs != [] {
      var init, last := cs[..|cs| - 1], cs[|cs| - 1];
      AddTeamsKeys(pool, init, p);
      assert cs == init + [last];
    }
  }

  /** A visited constructor's entry is its drivers' summed score and its table cost. */
  lemma {:induction false} AddTeamsEntry(pool: Pool, cs: seq<ConstructorID>, c: ConstructorID)
    requires forall c <- cs :: Scored(pool, c)
    requires c in cs
    ensures Constructor(c) in AddTeams(pool, cs) && AddTeams(pool, cs)[Constructor(c)] == TeamPlayer(pool, c)
  {
    var init, last := cs[..|cs| - 1], cs[|cs| - 1];
    if c != last {
      assert cs == init + [last];
      AddTeamsEntry(pool, init, c);
    }
  }

  /** The constructor loop leaves every driver entry, and every missing driver, as it was. */
  lemma {:induction false} AddTeamsDrivers(pool: Pool, cs: seq<ConstructorID>, d: DriverID)
    requires forall c <- cs :: Scored(pool, c)
    ensures Driver(d) in AddTeams(pool, cs) <==> Driver(d) in pool
    ensures Driver(d) in pool ==> AddTeams(pool, cs)[Driver(d)] == pool[Driver(d)]
  {
    if cs != [] {
      AddTeamsDrivers(pool, cs[..|cs| - 1], d);
    }
  }

  /**
   * The player pool `__init__` builds, or the `KeyError` its constructor loop raises for the first
   * constructor (in declaration order) with a driver missing from the request.
   */
  function PlayerPool(scores: seq<DriverScore>): Result<Pool, Error>
  {
    var base := DriverPool(scores);
    var k := FirstUnscored(base, AllConstructors);
    if k < |AllConstructors| then Err(KeyError(Driver(MissingTeammate(base, AllConstructors[k]))))
    else Ok(AddTeams(base, AllConstructors))
  }

  /** The pool's keys are the request's drivers and all ten constructors. */
  lemma PoolKeys(scores: seq<DriverScore>, p: PlayerID)
    requires PlayerPool(scores).Ok?
    ensures p in PlayerPool(scores).value <==> p.Constructor? || p in ScoredDrivers(scores)
  {
    var base := DriverPool(scores);
    DriverPoolKeys(scores);
    AllScored(base);
    AddTeamsKeys(base, AllConstructors, p);
    AllConstructorsEnumerates();
  }

  /** Each driver of the request is entered as `Player(id, score, COSTS[id])`, from its last occurrence. */
  lemma PoolDriverEntries(scores: seq<DriverScore>, i: nat)
    requires PlayerPool(scores).Ok?
    requires i < |scores| && LastOccurrence(scores, i)
    ensures Driver(scores[i].id) in PlayerPool(scores).value
    ensures PlayerPool(scores).value[Driver(scores[i].id)] == Player(Driver(scores[i].id), scores[i].score, Cost(Driver(scores[i].id)))
  {
    var base := DriverPool(scores);
    DriverPoolEntry(scores, i);
    AllScored(base);
    AddTeamsDrivers(base, AllConstructors, scores[i].id);
  }

  /** Every constructor is entered with the sum of its two drivers' scores and its own cost. */
  lemma PoolConstructorEntries(scores: seq<DriverScore>, c: ConstructorID)
    requires PlayerPool(scores).Ok?
    ensures var pool := PlayerPool(scores).value;
      && Driver(Teammates(c).0) in pool && Driver(Teammates(c).1) in pool && Constructor(c) in pool
      && pool[Constructor(c)] == Player(Constructor(c),
                                        pool[Driver(Teammates(c).0)].score + pool[Driver(Teammates(c).1)].score,
                                        Cost(Constructor(c)))
  {
    var base := DriverPool(scores);
    AllScored(base);
    assert AllConstructors[DeclarationIndex(c)] == c;
    AddTeamsEntry(base, AllConstructors, c);
    AddTeamsDrivers(base, AllConstructors, Teammates(c).0);
    AddTeamsDrivers(base, AllConstructors, Teammates(c).1);
  }

  /** Building the pool fails exactly when some constructor has a driver without a score. */
  lemma PoolFailsOnMissingDriver(scores: seq<DriverScore>)
    ensures PlayerPool(scores).Err? <==>
              exists c :: Driver(Teammates(c).0) !in ScoredDrivers(scores) || Driver(Teammates(c).1) !in ScoredDrivers(scores)
  {
    var base := DriverPool(scores);
    DriverPoolKeys(scores);
    var k := FirstUnscored(base, AllConstructors);
    if k == |AllConstructors| {
      AllScored(base);
      forall c ensures Driver(Teammates(c).0) in ScoredDrivers(scores) && Driver(Teammates(c).1) in ScoredDrivers(scores) {
        assert Scored(base, c);
      }
    } else {
      var c := AllConstructors[k];
      assert !Scored(base, c);
      assert Driver(Teammates(c).0) !in ScoredDrivers(scores) || Driver(Teammates(c).1) !in ScoredDrivers(scores);
    }
  }

  /**
   * The `KeyError` of a failed build names a driver with no score. It belongs to the first constructor in
   * declaration order that has an unscored driver. It is the first driver of that pair whenever that one
   * is unscored, since that lookup comes first, and the second driver otherwise.
   */
  lemma PoolErrorNamesUnscoredDriver(scores: seq<DriverScore>)
    requires PlayerPool(scores).Err?
    ensures PlayerPool(scores).error.KeyError? && PlayerPool(scores).error.key.Driver?
    ensures PlayerPool(scores).error.key !in ScoredDrivers(scores)
    ensures exists c :: PlayerPool(scores).error.key in {Driver(Teammates(c).0), Driver(Teammates(c).1)}
    ensures exists k | 0 <= k < |AllConstructors| ::
              && PlayerPool(scores).error.key in {Driver(Teammates(AllConstructors[k]).0), Driver(Teammates(AllConstructors[k]).1)}
              && PlayerPool(scores).error.key ==
                   (if Driver(Teammates(AllConstructors[k]).0) !in ScoredDrivers(scores)
                    then Driver(Teammates(AllConstructors[k]).0) else Driver(Teammates(AllConstructors[k]).1))
              && forall j | 0 <= j < k :: Driver(Teammates(AllConstructors[j]).0) in ScoredDrivers(scores)
                                          && Driver(Teammates(AllConstructors[j]).1) in ScoredDrivers(scores)
  {
    DriverPoolKeys(scores);
    var base := DriverPool(scores);
    var k := FirstUnscored(base, AllConstructors);
    var c := AllConstructors[k];
    assert PlayerPool(scores).error.key in {Driver(Teammates(c).0), Driver(Teammates(c).1)};
    assert forall j | 0 <= j < k :: Scored(base, AllConstructors[j]);
  }

  /** When the loop meets no unscored constructor, every constructor is scored. */
  lemma AllScored(pool: Pool)
    requires FirstUnscored(pool, AllConstructors) == |AllConstructors|
    ensures forall c :: Scored(pool, c)
  {
    forall c ensures Scored(pool, c) {
      assert AllConstructors[DeclarationIndex(c)] == c;
    }
  }

  /** Every pool entry is stored under its own id, as the solver expects of its `players` argument. */
  lemma PoolIdsMatchKeys(scores: seq<DriverScore>, p: PlayerID)
    requires PlayerPool(scores).Ok?
    requires p in PlayerPool(scores).value
    ensures PlayerPool(scores).value[p].id == p
  {
    var base := DriverPool(scores);
    AllScored(base);
    PoolKeys(scores, p);
    match p {
      case Constructor(c) => PoolConstructorEntries(scores, c);
      case Driver(d) =>
        DriverPoolKeys(scores);
        var i :| 0 <= i < |scores| && scores[i].id == d;
        var j := LastIndex(scores, i);
        PoolDriverEntries(scores, j);
    }
  }

  /**
   * A pool that is built at all holds every player of the catalogue: each driver races for some
   * constructor, and every constructor's drivers must have been scored.
   */
  lemma PoolCoversCatalogue(scores: seq<DriverScore>, p: PlayerID)
    requires PlayerPool(scores).Ok?
    ensures p in PlayerPool(scores).value
  {
    PoolKeys(scores, p);
    if p.Driver? {
      var c := TeamOf(p.driver);
      TeammatesPartitionDrivers(c, p.driver);
      PoolFailsOnMissingDriver(scores);
    }
  }

  /** The last position at or after `i` that names the same driver as position `i`. */
  lemma {:induction false} LastIndex(scores: seq<DriverScore>, i: nat) returns (j: nat)
    requires i < |scores|
    ensures i <= j < |scores| && scores[j].id == scores[i].id && LastOccurrence(scores, j)
    decreases |scores| - i
  {
    if LastOccurrence(scores, i) {
      j := i;
    } else {
      var k :| i < k < |scores| && scores[k].id == scores[i].id;
      j := LastIndex(scores, k);
    }
  }

  /** `[p.id for p in overrides if p.override == kind]`. */
  function IdsOfKind(overrides: seq<PlayerOverride>, kind: Override): seq<PlayerID>
  {
    if overrides == [] then []
    else
      var last := overrides[|overrides| - 1];
      IdsOfKind(overrides[..|overrides| - 1], kind) + (if last.override == kind then [last.id] else [])
  }

  /** An id is listed for a kind exactly when some override of that kind names it. */
  lemma {:induction false} IdsOfKindMembers(overrides: seq<PlayerOverride>, kind: Override, id: PlayerID)
    ensures id in IdsOfKind(overrides, kind) <==> PlayerOverride(id, kind) in overrides
  {
    if overrides != [] {
      var init, last := overrides[..|overrides| - 1], overrides[|overrides| - 1];
      IdsOfKindMembers(init, kind, id);
      assert overrides == init + [last];
    }
  }

  /** The comprehension keeps input order: the ids of a concatenation are the concatenated ids. */
  lemma {:induction false} IdsOfKindConcat(a: seq<PlayerOverride>, b: seq<PlayerOverride>, kind: Override)
    ensures IdsOfKind(a + b, kind) == IdsOfKind(a, kind) + IdsOfKind(b, kind)
  {
    if b != [] {
      var init, last := b[..|b| - 1], b[|b| - 1];
      assert (a + b)[..|a + b| - 1] == a + init;
      IdsOfKindConcat(a, init, kind);
    } else {
      assert a + b == a;
    }
  }

  /** The four comprehensions together take every override exactly once. */
  lemma {:induction false} OverridesPartitioned(overrides: seq<PlayerOverride>)
    ensures |IdsOfKind(overrides, Include)| + |IdsOfKind(overrides, Exclude)| +
            |IdsOfKind(overrides, NoTurbo)| + |IdsOfKind(overrides, Turbo)| == |overrides|
  {
    if overrides != [] {
      OverridesPartitioned(overrides[..|overrides| - 1]);
    }
  }

  /** The override fields of the model spec. */
  datatype OverrideFields = OverrideFields(
    includeOverride: Option<seq<PlayerID>>,
    excludeOverride: Option<seq<PlayerID>>,
    noTurboOverride: Option<seq<PlayerID>>,
    turboOverride: Option<PlayerID>)

  const NoOverrides: OverrideFields := OverrideFields(None, None, None, None)

  /** A list field is set only when its comprehension found at least one id. */
  function NonEmpty(ids: seq<PlayerID>): Option<seq<PlayerID>>
  {
    if |ids| > 0 then Some(ids) else None
  }

  /** The override fields `__init__` ends with, or the exception it raises for two or more turbo overrides. */
  function SplitOverrides(overrides: Option<seq<PlayerOverride>>): Result<OverrideFields, Error>
  {
    if overrides.None? || |overrides.value| == 0 then Ok(NoOverrides)
    else
      var os := overrides.value;
      var turbo := IdsOfKind(os, Turbo);
      if |turbo| > 1 then Err(MultipleTurboDrivers)
      else
        Ok(OverrideFields(NonEmpty(IdsOfKind(os, Include)), NonEmpty(IdsOfKind(os, Exclude)),
                          NonEmpty(IdsOfKind(os, NoTurbo)), if |turbo| == 1 then Some(turbo[0]) else None))
  }

  /** Without overrides (`None` or an empty list) all four fields stay `None`. */
  lemma NoOverridesLeaveFieldsUnset(overrides: Option<seq<PlayerOverride>>)
    requires overrides.None? || overrides.value == []
    ensures SplitOverrides(overrides) == Ok(NoOverrides)
  {
  }

  /**
   * A list field holds the ids of its kind, in input order, when there is at least one such
   * override, and is `None` otherwise.
   */
  lemma ListFieldsHoldTheirKind(os: seq<PlayerOverride>, id: PlayerID)
    requires SplitOverrides(Some(os)).Ok?
    ensures var f := SplitOverrides(Some(os)).value;
      && (f.includeOverride.Some? <==> exists p :: PlayerOverride(p, Include) in os)
      && (f.includeOverride.Some? ==> f.includeOverride.value == IdsOfKind(os, Include) && (id in f.includeOverride.value <==> PlayerOverride(id, Include) in os))
      && (f.excludeOverride.Some? <==> exists p :: PlayerOverride(p, Exclude) in os)
      && (f.excludeOverride.Some? ==> f.excludeOverride.value == IdsOfKind(os, Exclude) && (id in f.excludeOverride.value <==> PlayerOverride(id, Exclude) in os))
      && (f.noTurboOverride.Some? <==> exists p :: PlayerOverride(p, NoTurbo) in os)
      && (f.noTurboOverride.Some? ==> f.noTurboOverride.value == IdsOfKind(os, NoTurbo) && (id in f.noTurboOverride.value <==> PlayerOverride(id, NoTurbo) in os))
  {
    IdsOfKindMembers(os, Include, id);
    IdsOfKindMembers(os, Exclude, id);
    IdsOfKindMembers(os, NoTurbo, id);
    forall kind, p | PlayerOverride(p, kind) in os ensures |IdsOfKind(os, kind)| > 0 {
      IdsOfKindMembers(os, kind, p);
    }
    forall kind | |IdsOfKind(os, kind)| > 0 ensures PlayerOverride(IdsOfKind(os, kind)[0], kind) in os {
      IdsOfKindMembers(os, kind, IdsOfKind(os, kind)[0]);
    }
  }

  /**
   * Zero turbo overrides leave the turbo field `None`, one sets it to that id, two or more raise.
   * Nothing else can make the split fail: an id may be both included and excluded, or a
   * constructor may be named as turbo.
   */
  lemma TurboOverrideCases(os: seq<PlayerOverride>)
    requires os != []
    ensures var turbo := IdsOfKind(os, Turbo);
      && (SplitOverrides(Some(os)).Err? <==> |turbo| > 1)
      && (SplitOverrides(Some(os)).Err? ==> SplitOverrides(Some(os)).error == MultipleTurboDrivers)
      && (|turbo| == 0 ==> SplitOverrides(Some(os)).value.turboOverride == None)
      && (|turbo| == 1 ==> SplitOverrides(Some(os)).value.turboOverride == Some(turbo[0]) && PlayerOverride(turbo[0], Turbo) in os)
  {
  }

  /** The comprehension over one more override appends that override's id when it has the kind. */
  lemma IdsOfKindSnoc(os: seq<PlayerOverride>, o: PlayerOverride, kind: Override)
    ensures IdsOfKind(os + [o], kind) == IdsOfKind(os, kind) + (if o.override == kind then [o.id] else [])
  {
  }

  /**
   * An inconsistent request is accepted as it stands: including and excluding the same driver, and
   * naming a constructor as turbo, raise nothing.
   */
  lemma InconsistentOverridesAccepted()
    ensures SplitOverrides(Some([PlayerOverride(Driver(Hamilton), Include), PlayerOverride(Driver(Hamilton), Exclude),
                                 PlayerOverride(Constructor(Ferrari), Turbo)]))
         == Ok(OverrideFields(Some([Driver(Hamilton)]), Some([Driver(Hamilton)]), None, Some(Constructor(Ferrari))))
  {
    var a, b, c := PlayerOverride(Driver(Hamilton), Include), PlayerOverride(Driver(Hamilton), Exclude),
                   PlayerOverride(Constructor(Ferrari), Turbo);
    assert [a] == [] + [a];
    assert [a, b] == [a] + [b];
    assert [a, b, c] == [a, b] + [c];
    forall kind ensures IdsOfKind([a, b, c], kind) ==
                          (if kind == Include then [a.id] else []) + (if kind == Exclude then [b.id] else []) +
                          (if kind == Turbo then [c.id] else []) {
      IdsOfKindSnoc([], a, kind);
      IdsOfKindSnoc([a], b, kind);
      IdsOfKindSnoc([a, b], c, kind);
    }
    assert IdsOfKind([a, b, c], Include) == [Driver(Hamilton)];
    assert IdsOfKind([a, b, c], Exclude) == [Driver(Hamilton)];
    assert IdsOfKind([a, b, c], NoTurbo) == [];
    assert IdsOfKind([a, b, c], Turbo) == [Constructor(Ferrari)];
  }

  /** `LineupOptimizationModelSpec`: the normalised request the solver is called with. */
  class LineupOptimizationModelSpec {
    var budget: real
    var allowTeammates: bool
    var playerScores: Pool
    var turboOverride: Option<PlayerID>
    var noTurboOverride: Option<seq<PlayerID>>
    var excludeOverride: Option<seq<PlayerID>>
    var includeOverride: Option<seq<PlayerID>>

    /** The four override fields together. */
    function Overrides(): OverrideFields
      reads this
    {
      OverrideFields(includeOverride, excludeOverride, noTurboOverride, turboOverride)
    }

    /** The field assignments that come before the constructor loop. */
    constructor (driverScores: seq<DriverScore>, budget: real, allowTeammates: bool)
      ensures this.budget == budget && this.allowTeammates == allowTeammates
      ensures playerScores == DriverPool(driverScores)
    {
      this.budget := budget;
      this.allowTeammates := allowTeammates;
      this.playerScores := DriverPool(driverScores);
    }

    /**
     * The loop over `ConstructorID`: enters every constructor in turn and stops with a `KeyError`
     * at the first constructor whose driver has no entry.
     */
    method AddConstructors() returns (err: Option<Error>)
      modifies this`playerScores
      ensures var base, k := old(playerScores), FirstUnscored(old(playerScores), AllConstructors);
        && playerScores == AddTeams(base, AllConstructors[..k])
        && (err.None? <==> k == |AllConstructors|)
        && (err.Some? ==> err.value == KeyError(Driver(MissingTeammate(base, AllConstructors[k]))))
    {
      var base := playerScores;
      var n := |AllConstructors|;
      var i := 0;
      while i < n
        invariant 0 <= i <= n
        invariant forall j | 0 <= j < i :: Scored(base, AllConstructors[j])
        invariant playerScores == AddTeams(base, AllConstructors[..i])
      {
        var c := AllConstructors[i];
        DriverMapCoversConstructors(c);
        var (d1, d2) := ConstructorDriverMap[c];
        AddTeamsDrivers(base, AllConstructors[..i], d1);
        AddTeamsDrivers(base, AllConstructors[..i], d2);
        if Driver(d1) !in playerScores {
          FirstUnscoredAt(base, AllConstructors, i);
          return Some(KeyError(Driver(d1)));
        }
        if Driver(d2) !in playerScores {
          FirstUnscoredAt(base, AllConstructors, i);
          return Some(KeyError(Driver(d2)));
        }
        var score := playerScores[Driver(d1)].score + playerScores[Driver(d2)].score;
        CostsCoverCatalogue(Constructor(c));
        var entry := Player(Constructor(c), score, Costs[Constructor(c)]);
        assert entry == TeamPlayer(base, c);
        AddTeamsStep(base, AllConstructors, i);
        playerScores := playerScores[Constructor(c) := entry];
        i := i + 1;
      }
      assert AllConstructors[..n] == AllConstructors;
      FirstUnscoredAt(base, AllConstructors, n);
      return None;
    }

    /** The override assignments: reset the four fields, then fill them from the comprehensions. */
    method ApplyOverrides(overrides: Option<seq<PlayerOverride>>) returns (err: Option<Error>)
      modifies this`turboOverride, this`noTurboOverride, this`excludeOverride, this`includeOverride
      ensures err.None? <==> SplitOverrides(overrides).Ok?
      ensures err.None? ==> Overrides() == SplitOverrides(overrides).value
      ensures err.Some? ==> err.value == MultipleTurboDrivers && overrides.Some? &&
                            Overrides() == OverrideFields(NonEmpty(IdsOfKind(overrides.value, Include)),
                                                          NonEmpty(IdsOfKind(overrides.value, Exclude)),
                                                          NonEmpty(IdsOfKind(overrides.value, NoTurbo)), None)
    {
      turboOverride := None;
      noTurboOverride := None;
      excludeOverride := None;
      includeOverride := None;
      if overrides.Some? && |overrides.value| > 0 {
        var os := overrides.value;
        var included := IdsOfKind(os, Include);
        if |included| > 0 {
          includeOverride := Some(included);
        }
        var excluded := IdsOfKind(os, Exclude);
        if |excluded| > 0 {
          excludeOverride := Some(excluded);
        }
        var noTurbo := IdsOfKind(os, NoTurbo);
        if |noTurbo| > 0 {
          noTurboOverride := Some(noTurbo);
        }
        var turbo := IdsOfKind(os, Turbo);
        if |turbo| == 0 {
        } else if |turbo| == 1 {
          turboOverride := Some(turbo[0]);
        } else {
          return Some(MultipleTurboDrivers);
        }
      }
      return None;
    }
  }

  /** Entering one more constructor extends the pool by that constructor's entry. */
  lemma AddTeamsStep(pool: Pool, cs: seq<ConstructorID>, i: nat)
    requires i < |cs|
    requires forall j | 0 <= j <= i :: Scored(pool, cs[j])
    ensures AddTeams(pool, cs[..i + 1]) == AddTeams(pool, cs[..i])[Constructor(cs[i]) := TeamPlayer(pool, cs[i])]
  {
    assert cs[..i + 1][..i] == cs[..i];
  }

  /** `FirstUnscored` is the first position whose constructor is unscored. */
  lemma {:induction false} FirstUnscoredAt(pool: Pool, cs: seq<ConstructorID>, i: nat)
    requires i <= |cs|
    requires forall j | 0 <= j < i :: Scored(pool, cs[j])
    requires i < |cs| ==> !Scored(pool, cs[i])
    ensures FirstUnscored(pool, cs) == i
  {
    if i > 0 {
      FirstUnscoredAt(pool, cs[1..], i - 1);
    }
  }

  /**
   * `LineupOptimizationModelSpec(driver_scores, budget, allow_teammates, overrides)`: either the
   * new object, holding the player pool and the split overrides, or the exception `__init__`
   * raises; a missing driver score is found before the turbo overrides are counted.
   */
  method NewModelSpec(driverScores: seq<DriverScore>, budget: real, allowTeammates: bool,
                      overrides: Option<seq<PlayerOverride>>)
    returns (r: Result<LineupOptimizationModelSpec, Error>)
    ensures PlayerPool(driverScores).Err? ==> r == Err(PlayerPool(driverScores).error)
    ensures PlayerPool(driverScores).Ok? && SplitOverrides(overrides).Err? ==> r == Err(SplitOverrides(overrides).error)
    ensures r.Ok? <==> PlayerPool(driverScores).Ok? && SplitOverrides(overrides).Ok?
    ensures r.Ok? ==> fresh(r.value) && r.value.budget == budget && r.value.allowTeammates == allowTeammates
    ensures r.Ok? ==> r.value.playerScores == PlayerPool(driverScores).value
    ensures r.Ok? ==> r.value.Overrides() == SplitOverrides(overrides).value
  {
    var spec := new LineupOptimizationModelSpec(driverScores, budget, allowTeammates);
    var err := spec.AddConstructors();
    if err.Some? {
      return Err(err.value);
    }
    assert AllConstructors[..|AllConstructors|] == AllConstructors;
    err := spec.ApplyOverrides(overrides);
    if err.Some? {
      return Err(err.value);
    }
    return Ok(spec);
  }
}
