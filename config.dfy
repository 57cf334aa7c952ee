/** The static catalogue: the cost table, the constructor-to-drivers table and the turbo threshold. */
module Config {
  import opened Players

  /** Drivers whose cost reaches this value may not be picked as turbo driver automatically. */
  const TurboDriverThreshold: real := 20.0

  /** The cost table `COSTS`: one entry per player of the catalogue, valued by `Cost`. */
  const Costs: map<PlayerID, real> := map p | p in PlayersByName :: Cost(p)

  /** The driver table `CONSTRUCTOR_DRIVER_MAP`: one entry per constructor, valued by `Teammates`. */
  const ConstructorDriverMap: map<ConstructorID, (DriverID, DriverID)> := map c | c in AllConstructors :: Teammates(c)

  /** `COSTS[Driver(d)]`, read off the table one driver at a time. */
  function DriverCost(d: DriverID): real
  {
    match d
    case Verstappen => 30.5 case Hamilton => 31.0 case Perez => 17.5 case Norris => 16.0
    case Leclerc => 18.0 case Bottas => 9.0 case Sainz => 17.0 case Gasly => 13.5
    case Vettel => 11.5 case Ricciardo => 14.5 case Alonso => 12.5 case Ocon => 12.0
    case Stroll => 9.5 case Tsunoda => 8.5 case Albon => 7.5 case Zhou => 8.0
    case Schumacher => 6.5 case Russell => 24.0 case Magnussen => 5.5 case Latifi => 7.0
  }

  /** `COSTS[Constructor(c)]`, read off the table one constructor at a time. */
  function ConstructorCost(c: ConstructorID): real
  {
    match c
    case Redbull => 32.5 case Mercedes => 34.5 case McLaren => 18.5 case Ferrari => 25.0
    case AstonMartin => 11.5 case AlphaTauri => 10.5 case Alpine => 14.0 case AlfaRomeo => 8.0
    case Haas => 6.0 case Williams => 7.0
  }

  /** `COSTS[id]`, which never fails on an enumeration member. */
  function Cost(p: PlayerID): real
  {
    match p
    case Driver(d) => DriverCost(d)
    case Constructor(c) => ConstructorCost(c)
  }

  /** Every cost in the table is positive. */
  lemma CostPositive(p: PlayerID)
    ensures Cost(p) > 0.0
  {
  }

  /** The cost table has an entry for every player, so `COSTS[id]` never fails, and it is positive. */
  lemma CostsCoverCatalogue(p: PlayerID)
    ensures p in Costs && Costs[p] == Cost(p) && Costs[p] > 0.0
  {
    PlayersByNameEnumerates();
    CostPositive(p);
  }

  /** `CONSTRUCTOR_DRIVER_MAP[c]`, read off the table one constructor at a time. */
  function Teammates(c: ConstructorID): (DriverID, DriverID)
  {
    match c
    case Redbull => (Verstappen, Perez)
    case Mercedes => (Hamilton, Russell)
    case McLaren => (Norris, Ricciardo)
    case Ferrari => (Leclerc, Sainz)
    case AstonMartin => (Vettel, Stroll)
    case AlphaTauri => (Gasly, Tsunoda)
    case Alpine => (Alonso, Ocon)
    case AlfaRomeo => (Bottas, Zhou)
    case Haas => (Schumacher, Magnussen)
    case Williams => (Albon, Latifi)
  }

  /** The driver table has an entry for every constructor. */
  lemma DriverMapCoversConstructors(c: ConstructorID)
    ensures c in ConstructorDriverMap && ConstructorDriverMap[c] == Teammates(c)
  {
    AllConstructorsEnumerates();
  }

  /** The team a driver races for, read off the grid. */
  function TeamOf(d: DriverID): ConstructorID
  {
    match d
    case Verstappen => Redbull case Perez => Redbull
    case Hamilton => Mercedes case Russell => Mercedes
    case Norris => McLaren case Ricciardo => McLaren
    case Leclerc => Ferrari case Sainz => Ferrari
    case Vettel => AstonMartin case Stroll => AstonMartin
    case Gasly => AlphaTauri case Tsunoda => AlphaTauri
    case Alonso => Alpine case Ocon => Alpine
    case Bottas => AlfaRomeo case Zhou => AlfaRomeo
    case Schumacher => Haas case Magnussen => Haas
    case Albon => Williams case Latifi => Williams
  }

  /** Each constructor's pair consists of two different drivers. */
  lemma TeammatesDistinct(c: ConstructorID)
    ensures Teammates(c).0 != Teammates(c).1
  {
  }

  /**
   * The ten pairs partition the twenty drivers: a driver belongs to the pair of constructor `c`
   * exactly when `c` is that driver's one team.
   */
  lemma TeammatesPartitionDrivers(c: ConstructorID, d: DriverID)
    ensures (d == Teammates(c).0 || d == Teammates(c).1) <==> TeamOf(d) == c
  {
  }

  /** Only Verstappen, Hamilton and Russell cost at least the turbo threshold. */
  lemma ExpensiveDrivers(d: DriverID)
    ensures Cost(Driver(d)) >= TurboDriverThreshold <==> d == Verstappen || d == Hamilton || d == Russell
  {
  }
}
