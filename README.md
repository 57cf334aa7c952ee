# Fantasy F1 lineup optimiser — a Dafny model

The repository picks a fantasy Formula 1 team. A team has five drivers, one constructor and one
"turbo" driver whose points count twice. It must stay within a budget and follow the user's
overrides. The repository finds the best team by handing an integer program to the GLPK solver.
It finds the N best teams by solving again and again, each time forbidding the teams already
found.

This project models that core in three parts:

- **The catalogue** (`config.dfy`, `players.dfy`). These are the cost table `COSTS`, the
  constructor-to-drivers table `CONSTRUCTOR_DRIVER_MAP` and `TURBO_DRIVER_THRESHOLD`. The two
  player enumerations are datatypes, with `PlayerID = Driver(DriverID) | Constructor(ConstructorID)`.
  The tables are match functions, `Cost` and `Teammates`. `Costs` and `ConstructorDriverMap` are the
  same tables as maps, and the `AddConstructors` loop reads the constructor costs and driver pairs
  through them.
- **The request object** (`model_spec.dfy`). `LineupOptimizationModelSpec.__init__` is a class
  with the source's fields, split into three steps:
  - the constructor, which stores the budget, the teammate flag and the driver entries;
  - `AddConstructors`, the loop that enters every constructor;
  - `ApplyOverrides`, which splits the override list.

  `NewModelSpec` runs the three steps and returns either the object or the exception.
  `__init__` raises that exception. Each step is specified by a function. The constructor's
  contract is `DriverPool`, `AddConstructors`' contract is `AddTeams`, and `ApplyOverrides`'
  contract is `SplitOverrides`. `PlayerPool` specifies the constructor and `AddConstructors`
  together: the whole pool, or the `KeyError`.
- **The solver** (`formulation.dfy`, `extraction.dfy`, `lineup_facts.dfy`, `solver.dfy`).
  - The integer program is modelled as follows. Each family of 0/1 variables is a set: the
    selected players and the turbo players. Every `model += …` constraint is one conjunct of
    `Feasible`, and the objective is `Objective`.
  - `model.solve` together with `assert model.status == 1` is the oracle method
    `Formulation.Solve`. It returns an optimal assignment when one exists and reports failure
    otherwise.
  - The loop over `model.variables()` is `Extraction.ExtractLineup`, a loop over tagged
    variables. The solver library returns them sorted by name: all "Players_" before all
    "Turbo_", and constructors before drivers.
  - `solve_top_lineups` is `Solver.SolveTopLineups`, a loop that rebuilds the exclusion list
    before every solve.

`optimize_lineup.dfy` proves the two facts that the request handler `optimize_lineup`
(app/api.py:22-37) relies on when it passes a built pool to `solve_top_lineups`. The handler's
body itself is not modelled. First, a pool built by the request object is well-formed: it has
every player of the catalogue, and every entry is stored under its own id. Second, it holds every
key, so no lookup made while building the integer program can fail on it.

The main results:

- **A returned lineup is valid.** It has five distinct drivers and a constructor. Its cost is
  within the budget and equals the sum over those six players. Teammates are kept apart unless
  allowed. The include, exclude and turbo overrides are honoured (`Solver.SolvedLineupRules`,
  `LineupFacts.ExtractFeasible`).
- **The top-N results are consistent.** They are pairwise distinct (`Solver.RankedDistinct`), and
  their objective never increases (`Solver.RankedObjectives`). When the loop stops on an
  infeasible program, every feasible team was found by the earlier iterations (`Solver.RankedExhausts`).

The top-N results are ordered by the objective, which counts the turbo driver twice. The
reported `score` field leaves the doubling out, and the code does not order the results by it:
a later lineup may report a higher `score` than an earlier one. The model therefore states the
ordering for the objective only. `Solver.Boosted` computes that objective from a reported lineup.

## Model

| member | source | states |
|---|---|---|
| Config.CostPositive | app/config.py:8-39 | every cost in the table is strictly positive |
| Config.CostsCoverCatalogue | app/config.py:8-39 | `COSTS` has a positive entry for every driver and every constructor, so its lookups never fail |
| Config.DriverMapCoversConstructors | app/config.py:41-52 | `CONSTRUCTOR_DRIVER_MAP` has an entry for every constructor |
| Config.TeammatesDistinct | app/config.py:42-51 | the two drivers of each constructor's pair are different |
| Config.TeammatesPartitionDrivers | app/config.py:42-51 | a driver is in constructor `c`'s pair exactly when `c` is its one team, so the ten pairs partition the twenty drivers |
| Config.ExpensiveDrivers | app/config.py:5-26 | only Verstappen, Hamilton and Russell cost at least the turbo threshold of 20 |
| Players.AllConstructorsEnumerates | app/players.py:10-20 | iterating `ConstructorID` visits every constructor exactly once |
| Players.PlayersByNameEnumerates | app/players.py:10-46 | the name-sorted list of players holds every player exactly once |
| Players.PlayersByNameSplits | app/players.py:10-46 | in name order the ten constructors come first and the twenty drivers after them |
| ModelSpec.DriverPool | app/model_spec.py:20-22 | the driver dict comprehension: one `Player(id, score, COSTS[id])` entry per score, later scores overwriting earlier ones |
| ModelSpec.AddTeams | app/model_spec.py:24-31 | the pool after the constructor loop has entered the given constructors in turn, each with its pair's summed score and its table cost |
| ModelSpec.PlayerPool | app/model_spec.py:20-31 | the whole `player_scores` dict, or the `KeyError` for the missing teammate of the first constructor in declaration order with an unscored driver |
| ModelSpec.IdsOfKind | app/model_spec.py:40-52 | `[p.id for p in overrides if p.override == kind]`, the ids of one override kind in input order |
| ModelSpec.SplitOverrides | app/model_spec.py:33-58 | the four override fields: `None` without overrides, each list field set only when non-empty, the turbo field from a single turbo override, and the exception for two or more |
| ModelSpec.DriverPoolKeys | app/model_spec.py:20-22 | the dict comprehension has a key for exactly the drivers named in the request |
| ModelSpec.DriverPoolEntry | app/model_spec.py:20-22 | a driver's entry is `Player(id, score, COSTS[id])` taken from its last occurrence |
| ModelSpec.AddTeamsKeys | app/model_spec.py:24-31 | the constructor loop adds a key for every constructor it visits and no other key |
| ModelSpec.AddTeamsEntry | app/model_spec.py:24-31 | a visited constructor's entry holds its two drivers' summed score and its own cost |
| ModelSpec.AddTeamsDrivers | app/model_spec.py:24-31 | the constructor loop leaves driver entries, and missing drivers, unchanged |
| ModelSpec.FirstUnscored | app/model_spec.py:24-26 | the first constructor in declaration order whose driver has no entry; every earlier one is complete |
| ModelSpec.MissingTeammate | app/model_spec.py:25-26 | the driver whose lookup fails: the first of the pair when it is missing, else the second |
| ModelSpec.PoolKeys | app/model_spec.py:20-31 | a built pool's keys are the request's drivers and all ten constructors |
| ModelSpec.PoolDriverEntries | app/model_spec.py:20-22 | in the built pool each requested driver has the entry from its last occurrence, costed from the table |
| ModelSpec.PoolConstructorEntries | app/model_spec.py:24-31 | every constructor's entry has the sum of its drivers' scores and its table cost |
| ModelSpec.PoolFailsOnMissingDriver | app/model_spec.py:24-26 | building fails exactly when some constructor has a driver with no score |
| ModelSpec.PoolErrorNamesUnscoredDriver | app/model_spec.py:24-26 | the `KeyError` names an unscored driver of the first constructor, in declaration order, that has one: the pair's first driver whenever it is unscored, else the second |
| ModelSpec.PoolIdsMatchKeys | app/model_spec.py:20-31 | every entry of the built pool is stored under its own id |
| ModelSpec.PoolCoversCatalogue | app/model_spec.py:20-31 | a pool that is built at all holds all thirty players |
| ModelSpec.LastIndex | app/model_spec.py:20-22 | every requested driver has a last occurrence, which is the one the comprehension keeps |
| ModelSpec.IdsOfKindMembers | app/model_spec.py:40-52 | an id is in a kind's comprehension exactly when an override of that kind names it |
| ModelSpec.IdsOfKindConcat | app/model_spec.py:40-52 | the comprehensions keep input order |
| ModelSpec.IdsOfKindSnoc | app/model_spec.py:40-52 | one more override appends its id to the list of its kind only |
| ModelSpec.OverridesPartitioned | app/model_spec.py:40-52 | the four comprehensions together take every override exactly once |
| ModelSpec.NoOverridesLeaveFieldsUnset | app/model_spec.py:33-38 | with `None` or an empty list all four override fields stay `None` |
| ModelSpec.ListFieldsHoldTheirKind | app/model_spec.py:40-50 | each list field holds its kind's ids in input order when there is one, and is `None` otherwise |
| ModelSpec.TurboOverrideCases | app/model_spec.py:52-58 | zero turbo overrides leave the field `None`, one sets it, two or more raise; nothing else fails |
| ModelSpec.InconsistentOverridesAccepted | app/model_spec.py:39-58 | a request that includes and excludes the same driver and names a constructor as turbo is accepted unchanged |
| ModelSpec.LineupOptimizationModelSpec.constructor | app/model_spec.py:17-22 | stores the budget and teammate flag unchanged and the driver entries |
| ModelSpec.LineupOptimizationModelSpec.AddConstructors | app/model_spec.py:24-31 | the loop enters the constructors up to the first unscored one, and fails there with that driver's `KeyError` |
| ModelSpec.AddTeamsStep | app/model_spec.py:27-31 | one loop iteration writes exactly the visited constructor's entry |
| ModelSpec.FirstUnscoredAt | app/model_spec.py:24-26 | the loop's stopping point is the first unscored constructor |
| ModelSpec.LineupOptimizationModelSpec.ApplyOverrides | app/model_spec.py:33-58 | the fields end as the override split says, or the method fails with the multiple-turbo error after setting the three list fields |
| ModelSpec.NewModelSpec | app/model_spec.py:10-58 | a missing driver fails first, then multiple turbos; otherwise the object holds the pool, the unchanged settings and the split overrides |
| Formulation.Objective | app/solver.py:39 | the objective: each selected player's score plus each turbo player's score, summed over the pool |
| Formulation.WithinBudget | app/solver.py:42 | the selected players' total cost is at most the budget |
| Formulation.RightShape | app/solver.py:45-46 | exactly five drivers and exactly one constructor are selected |
| Formulation.TeammatesApart | app/solver.py:49-51 | unless teammates are allowed, no constructor has both of its drivers selected |
| Formulation.OverridesHonoured | app/solver.py:53-61 | every included id is selected and no excluded id is |
| Formulation.TurboEligible | app/solver.py:72-78 | a pool player may carry the turbo when it is a driver, costs under the threshold and is not on the no-turbo list |
| Formulation.TurboRule | app/solver.py:63-81 | exactly one turbo player; with a turbo override it is that player and is selected, otherwise only a selected eligible player may be it |
| Formulation.CountSelected | app/solver.py:87 | `lpSum([team_vars[i] for i in solution])`: how many positions of a solution are selected, repeats counted |
| Formulation.SolutionsExcluded | app/solver.py:83-87 | every excluded solution has at most five of its positions selected |
| Formulation.Feasible | app/solver.py:39-87 | an assignment meets every constraint the program adds: 0/1 values over the pool, budget, shape, teammates, overrides, turbo and excluded solutions |
| Formulation.SettingsLookups | app/solver.py:49-69 | the keys the teammate, include, exclude and turbo-override constraints look up, in the order the source looks them up |
| Formulation.Lookups | app/solver.py:49-87 | the settings' lookups followed by the excluded solutions' ids, the keys whose first absence raises `KeyError` |
| Formulation.FirstMissing | app/solver.py:49-87 | the first key looked up that is not in the pool, which raises the `KeyError`, or none when every lookup succeeds |
| Formulation.HighestIn | app/solver.py:39 | a non-empty set of assignments has one of highest objective |
| Formulation.OptimumExists | app/solver.py:39-89 | a program with a feasible assignment has an optimal one |
| Formulation.Solve | app/solver.py:89-91 | the solver returns an optimal assignment, and fails exactly when no assignment is feasible |
| Extraction.ModelVariables | app/solver.py:96 | `model.variables()`: every "Players_" variable, then every "Turbo_" variable, each family in name order |
| Extraction.ListedDrivers | app/solver.py:96-104 | the `drivers` list after the loop: the driver of every positive "Players_" driver variable, in visiting order |
| Extraction.LastConstructor | app/solver.py:96-100 | the `constructor` after the loop: the constructor of the last positive variable naming one, or `None` |
| Extraction.LastTurbo | app/solver.py:96-102 | the `turbo` after the loop: the driver of the last positive "Turbo_" driver variable, or `None` |
| Extraction.Extracted | app/solver.py:93-113 | the returned dict: drivers, constructor, turbo, and the cost and score summed over `drivers + [constructor]`, or the `KeyError` when no constructor was read |
| Extraction.FamilyIds | app/solver.py:34-35 | there is one variable of each family per pool entry and no other |
| Extraction.ModelVariablesInPool | app/solver.py:34-35 | every variable belongs to a pool entry |
| Extraction.ListedDriversMembers | app/solver.py:96-104 | a driver is appended exactly when its "Players" variable is visited and positive |
| Extraction.LastConstructorFound | app/solver.py:99-100 | a constructor is recorded only from a positive variable of that constructor |
| Extraction.TeamInPool | app/solver.py:106-112 | the team the sums run over consists of pool entries |
| Extraction.DriverPlayersMembers | app/solver.py:106 | the team's driver part holds exactly the listed drivers |
| Extraction.ExtractLineup | app/solver.py:93-113 | the loop computes the listed drivers, the last constructor and the last turbo driver, fails when no constructor is positive, and sums cost and score over the team |
| LineupFacts.ListedDriversAppend | app/solver.py:96-104 | the drivers listed from two runs of variables are the two lists joined |
| LineupFacts.LastConstructorAppend | app/solver.py:99-100 | a later positive constructor variable overrides an earlier one |
| LineupFacts.LastTurboAppend | app/solver.py:101-102 | a later positive turbo driver variable overrides an earlier one |
| LineupFacts.DriverPlayersAppend | app/solver.py:106 | the team's driver part of joined lists is the joined parts |
| LineupFacts.ListedSelection | app/solver.py:96-104 | the "Players" family lists the selected drivers in name order |
| LineupFacts.ListedTurboNone | app/solver.py:99-104 | no "Turbo" variable appends a driver |
| LineupFacts.FoundInFamily | app/solver.py:99-100 | within one family the constructor test finds the one positive constructor, if any |
| LineupFacts.TurboInFamily | app/solver.py:101-102 | within the "Turbo" family the turbo test finds the one positive turbo driver, if any |
| LineupFacts.SelectionSetsNoTurbo | app/solver.py:101-102 | no "Players" variable sets the turbo |
| LineupFacts.TotalAppend | app/solver.py:111-112 | the sum over joined lists is the sum of the sums |
| LineupFacts.LinearSumIsTotal | app/solver.py:42 | the linear cost or score expression at a 0/1 assignment is the sum over the players it selects |
| LineupFacts.ObjectiveSplits | app/solver.py:39 | the objective is the selected players' scores plus the turbo player's score |
| LineupFacts.SingleMember | app/solver.py:46 | a constraint forcing a count of one leaves exactly one member |
| LineupFacts.DriverPlayersIndex | app/solver.py:106 | the team's driver part has one entry per driver, in order |
| LineupFacts.TurboCases | app/solver.py:64-81 | the turbo player is selected, and it is a constructor only when a turbo override names it |
| LineupFacts.FilterHalves | app/solver.py:96 | in name order the selected constructor comes before the selected drivers |
| LineupFacts.NameOrderHalves | app/solver.py:96 | the selected players in variable order are the constructor and then the drivers in name order |
| LineupFacts.InPoolOrder | app/solver.py:34-35 | a player has variables exactly when it is in the pool |
| LineupFacts.DriversReadFeasible | app/solver.py:96-104 | from a feasible assignment the loop lists exactly the selected drivers, in name order |
| LineupFacts.ConstructorReadFeasible | app/solver.py:99-100 | from a feasible assignment the loop records the one selected constructor |
| LineupFacts.TurboReadFeasible | app/solver.py:101-102 | from a feasible assignment the loop records the turbo driver, or nothing when the turbo is a constructor |
| LineupFacts.ExtractFeasible | app/solver.py:93-113 | for a feasible assignment, extraction succeeds, gives the assignment back, has five distinct drivers, and reports the cost and score sums; the objective is the score plus the turbo's score again |
| LineupFacts.DriverSequence | app/solver.py:45-104 | the five selected drivers are read back as five distinct drivers |
| LineupFacts.TeamIsSelection | app/solver.py:106 | `drivers + [constructor]` is exactly the selected set |
| LineupFacts.LineupSums | app/solver.py:39-112 | the reported cost and score equal the program's linear sums, and the objective adds the turbo's score once more |
| LineupFacts.ExtractedLineupRules | app/solver.py:42-87 | the lineup is within budget; teammates are apart unless allowed; includes are in, excludes out; every excluded solution misses one place |
| LineupFacts.ExtractedTurbo | app/solver.py:63-102 | the turbo holder is on the team; an override is that player whatever its cost; otherwise a selected driver under the threshold and not listed "no turbo" |
| Solver.SolveLineup | app/solver.py:33-113 | the first missing key raises `KeyError`; otherwise the call fails exactly when the program is infeasible, and succeeds with the lineup of an optimal solution |
| Solver.SolvedLineupRules | app/solver.py:39-113 | a returned lineup keeps every rule, reports the plain sums, and no feasible assignment beats its doubled-turbo objective |
| Solver.SolveTopLineups | app/solver.py:141-163 | `n` lineups (none for `n <= 0`), each solved against the earlier teams; a `KeyError` comes only from the first call, and a failure aborts the loop, leaving the program infeasible |
| Solver.TeamsOf | app/solver.py:143-148 | the `exclude_solutions` list: `drivers + [constructor]` of every earlier solution, in order |
| Solver.ExclusionList | app/solver.py:143-148 | the excluded solutions are the earlier lineups' `drivers + [constructor]`, in order |
| Solver.RankedSnoc | app/solver.py:151-162 | appending a lineup solved against all earlier teams keeps the ranking |
| Solver.RankedShape | app/solver.py:141-162 | every ranked lineup has five distinct drivers from the pool |
| Solver.RankedLookups | app/solver.py:85-148 | earlier teams only name pool entries, so later calls raise no new `KeyError` |
| Solver.FlattenMember | app/solver.py:86-87 | every id looked up for the exclusions belongs to one excluded solution |
| Solver.FirstMissingAppend | app/solver.py:85-87 | lookups that succeed after the first failing one do not change the error |
| Solver.CountDistinct | app/solver.py:87 | for a list without repeats, `lpSum` of its variables counts its selected members |
| Solver.TeamDistinct | app/solver.py:106 | a team of five drivers and a constructor has six players, none twice |
| Solver.ShapeSize | app/solver.py:45-46 | a selection of five drivers and one constructor has six players |
| Solver.TeamExcluded | app/solver.py:85-87 | a selection of the right shape breaks the "at most 5" constraint exactly when it is that team |
| Solver.ExclusionsMeaning | app/solver.py:85-148 | against earlier teams an assignment is feasible exactly when it is feasible without them and is none of them |
| Solver.RankedDistinct | app/solver.py:141-163 | the lineups of the top-N loop have pairwise different teams |
| Solver.FeasibleShrinks | app/solver.py:141-163 | each later call's feasible assignments are feasible for every earlier call |
| Solver.RankedObjectives | app/solver.py:141-163 | the doubled-turbo objective never increases along the top-N results |
| Solver.RankedExhausts | app/solver.py:141-163 | when the loop stops on an infeasible program, every feasible team is among those found |
| OptimizeLineup.BuiltPoolIsWellFormed | app/model_spec.py:20-31 | a built pool stores each entry under its own id and holds every player of the catalogue |
| OptimizeLineup.BuiltPoolHasEveryKey | app/solver.py:49-87 | on a built pool no lookup made while building the program fails |

## Left out

- The HTTP endpoint, `/health`, request validation and logging (app/api.py) are I/O, and app/api.py is not part of this model. The request handler's fixed `n = 5` is not modelled; `SolveTopLineups` takes any `n`.
- GLPK is an oracle. Branch-and-bound, time limits, status codes other than "optimal", integrality tolerance and which optimum is picked among equals are not modelled. `Solve` returns some optimal assignment.
- Floating point: costs, scores, the budget and every sum are exact reals. Float rounding in the budget constraint and in the reported sums is not modelled.
- Variable names: PuLP's name strings and `name.split(".")` are replaced by tagged variables in the order PuLP sorts the names. `model.variables()` holds every variable of both families.
- Solver.SolveLineup, Solver.SolveTopLineups, Solver.SolvedLineupRules, Solver.RankedShape, Solver.RankedLookups, Solver.RankedDistinct, Solver.FeasibleShrinks, Solver.RankedObjectives, Solver.RankedExhausts, LineupFacts.TurboCases, LineupFacts.ExtractFeasible, LineupFacts.ExtractedLineupRules and LineupFacts.ExtractedTurbo require `WellFormedPool` (every entry stored under its own id). The source needs this too: its turbo constraints look up `player.id` and its sums look up the dict key. `OptimizeLineup.BuiltPoolIsWellFormed` shows that the caller's pools always meet it.
- Solver.SolveTopLineups: a failure aborts the loop as the exception does, but `found` is a ghost out-parameter. The source returns nothing on failure.
- `Config.Costs` and `Config.ConstructorDriverMap` are defined as comprehensions over the match functions `Cost` and `Teammates`. Each match arm restates one line of the table. The `AddConstructors` loop looks up both maps, as the source's loop does. The driver comprehension's `DriverPlayer`, the specification functions `TeamPlayer`, `Scored` and `MissingTeammate`, and the solver's teammate constraint use the total functions instead, because they are unfolded for all ten constructors at once and unfolding the map comprehension with them is beyond the verifier's resource limit.
- Pydantic parsing of `DriverScore`, `PlayerOverride` and `UserModelSpec` (app/types.py) is library behaviour. Only the shapes are kept, as datatypes.
- Python's "truthiness" tests (`if include_override:`, `if overrides:`, `if exclude_solutions:`) treat `None` and the empty list alike. The model reads both through `OrEmpty`, or checks for them explicitly.
