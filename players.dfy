/**
 * The fixed catalogue of selectable entities: the ten constructors (teams), the twenty drivers and
 * the player identifier that is one or the other.
 */
module Players {
  import opened Seqs

  datatype ConstructorID =
    | Redbull | Mercedes | McLaren | Ferrari | AstonMartin
    | AlphaTauri | Alpine | AlfaRomeo | Haas | Williams

  datatype DriverID =
    | Verstappen | Hamilton | Perez | Norris | Leclerc | Bottas | Sainz | Gasly | Vettel | Ricciardo
    | Alonso | Ocon | Stroll | Tsunoda | Albon | Zhou | Schumacher | Russell | Magnussen | Latifi

  /** A selectable entity: the union of the two enumerations, with the variant as an explicit tag. */
  datatype PlayerID = Driver(driver: DriverID) | Constructor(team: ConstructorID)

  /** The constructors in the order the enumeration declares them, which is the order of `for c in ConstructorID`. */
  const AllConstructors: seq<ConstructorID> :=
    [Redbull, Mercedes, McLaren, Ferrari, AstonMartin, AlphaTauri, Alpine, AlfaRomeo, Haas, Williams]

  function DeclarationIndex(c: ConstructorID): nat
  {
    match c
    case Redbull => 0 case Mercedes => 1 case McLaren => 2 case Ferrari => 3 case AstonMartin => 4
    case AlphaTauri => 5 case Alpine => 6 case AlfaRomeo => 7 case Haas => 8 case Williams => 9
  }

  /** `for c in ConstructorID` visits every constructor exactly once. */
  lemma AllConstructorsEnumerates()
    ensures Distinct(AllConstructors)
    ensures forall c :: c in AllConstructors
  {
    assert forall i | 0 <= i < |AllConstructors| :: DeclarationIndex(AllConstructors[i]) == i;
    forall c ensures c in AllConstructors {
      assert AllConstructors[DeclarationIndex(c)] == c;
    }
  }

  /**
   * Every player, sorted by the name the solver library gives its variable ("ConstructorID.AlfaRomeo"
   * before "ConstructorID.AlphaTauri", all constructors before "DriverID.Albon").
   */
  const PlayersByName: seq<PlayerID> := [
    Constructor(AlfaRomeo), Constructor(AlphaTauri), Constructor(Alpine), Constructor(AstonMartin),
    Constructor(Ferrari), Constructor(Haas), Constructor(McLaren), Constructor(Mercedes),
    Constructor(Redbull), Constructor(Williams),
    Driver(Albon), Driver(Alonso), Driver(Bottas), Driver(Gasly), Driver(Hamilton),
    Driver(Latifi), Driver(Leclerc), Driver(Magnussen), Driver(Norris), Driver(Ocon),
    Driver(Perez), Driver(Ricciardo), Driver(Russell), Driver(Sainz), Driver(Schumacher),
    Driver(Stroll), Driver(Tsunoda), Driver(Verstappen), Driver(Vettel), Driver(Zhou)
  ]

  function NameRank(p: PlayerID): nat
  {
    match p
    case Constructor(c) => (
      match c
      case AlfaRomeo => 0 case AlphaTauri => 1 case Alpine => 2 case AstonMartin => 3 case Ferrari => 4
      case Haas => 5 case McLaren => 6 case Mercedes => 7 case Redbull => 8 case Williams => 9)
    case Driver(d) => (
      match d
      case Albon => 10 case Alonso => 11 case Bottas => 12 case Gasly => 13 case Hamilton => 14
      case Latifi => 15 case Leclerc => 16 case Magnussen => 17 case Norris => 18 case Ocon => 19
      case Perez => 20 case Ricciardo => 21 case Russell => 22 case Sainz => 23 case Schumacher => 24
      case Stroll => 25 case Tsunoda => 26 case Verstappen => 27 case Vettel => 28 case Zhou => 29)
  }

  lemma RanksOfPlayersByName()
    ensures forall i | 0 <= i < |PlayersByName| :: NameRank(PlayersByName[i]) == i
  {
    RanksOfConstructors();
    RanksOfDrivers();
  }

  lemma RanksOfConstructors()
    ensures forall i | 0 <= i < 10 :: NameRank(PlayersByName[i]) == i
  {
  }

  lemma RanksOfDrivers()
    ensures forall i | 10 <= i < 30 :: NameRank(PlayersByName[i]) == i
  {
  }

  /** The name-sorted list holds every player of the catalogue exactly once. */
  lemma PlayersByNameEnumerates()
    ensures Distinct(PlayersByName)
    ensures forall p :: p in PlayersByName
  {
    RanksOfPlayersByName();
    forall p ensures p in PlayersByName {
      assert PlayersByName[NameRank(p)] == p;
    }
  }

  /** The constructors make up the first ten names, the drivers the other twenty. */
  lemma PlayersByNameSplits()
    ensures forall i | 0 <= i < 10 :: PlayersByName[i].Constructor?
    ensures forall i | 10 <= i < |PlayersByName| :: PlayersByName[i].Driver?
  {
  }

  lemma ConstructorsRankFirst(p: PlayerID)
    ensures NameRank(p) < 10 <==> p.Constructor?
  {
  }

  /** Every player sits at the position of its rank. */
  lemma NameRankIndexes(p: PlayerID)
    ensures NameRank(p) < |PlayersByName| && PlayersByName[NameRank(p)] == p
  {
  }
}
