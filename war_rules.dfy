/** The war game's rule tables (src/lib/maxWarConstants.ts) and its
    difficulty-dependent starting values (src/lib/maxWarStore.ts). */
module WarRules {

  datatype WarBuildingType = TownHall | House | Barracks | Farm | LumberMill | Mine | StoreHouse | Wall

  datatype UnitType = Villager | Soldier | Archer | Cavalry

  datatype Difficulty = Easy | Medium | Hard | Extreme

  /** The four resource counters. */
  datatype Resources = Resources(wood: int, food: int, gold: int, stone: int)

  /** A unit's price and its training time in seconds. */
  datatype UnitCost = UnitCost(price: Resources, time: nat)

  /** The store's name for a building type, used in generated ids. */
  function TypeName(t: WarBuildingType): string
  {
    match t
    case TownHall => "townhall"
    case House => "house"
    case Barracks => "barracks"
    case Farm => "farm"
    case LumberMill => "lumbermill"
    case Mine => "mine"
    case StoreHouse => "storehouse"
    case Wall => "wall"
  }

  function BuildingCost(t: WarBuildingType): (c: Resources)
    ensures c.wood >= 0 && c.food == 0 && c.gold >= 0 && c.stone >= 0
  {
    match t
    case TownHall => Resources(0, 0, 0, 0)
    case House => Resources(50, 0, 0, 30)
    case Barracks => Resources(100, 0, 50, 50)
    case Farm => Resources(80, 0, 0, 20)
    case LumberMill => Resources(60, 0, 30, 40)
    case Mine => Resources(100, 0, 0, 80)
    case StoreHouse => Resources(120, 0, 40, 60)
    case Wall => Resources(10, 0, 0, 20)
  }

  /** Construction time in seconds. */
  function ConstructionTime(t: WarBuildingType): nat
  {
    match t
    case TownHall => 0
    case House => 30
    case Barracks => 60
    case Farm => 40
    case LumberMill => 45
    case Mine => 50
    case StoreHouse => 35
    case Wall => 10
  }

  function BuildingHealth(t: WarBuildingType): (h: nat)
    ensures h >= 300
  {
    match t
    case TownHall => 1000
    case House => 500
    case Barracks => 800
    case Farm => 400
    case LumberMill => 600
    case Mine => 700
    case StoreHouse => 600
    case Wall => 300
  }

  function UnitCosts(t: UnitType): (c: UnitCost)
    ensures c.price.food > 0 && c.price.stone == 0 && c.time > 0
  {
    match t
    case Villager => UnitCost(Resources(0, 50, 0, 0), 25)
    case Soldier => UnitCost(Resources(0, 60, 40, 0), 30)
    case Archer => UnitCost(Resources(25, 65, 45, 0), 35)
    case Cavalry => UnitCost(Resources(0, 100, 80, 0), 60)
  }

  /** Position of a difficulty from easiest to hardest. */
  function Rank(d: Difficulty): nat
  {
    match d
    case Easy => 0
    case Medium => 1
    case Hard => 2
    case Extreme => 3
  }

  /** `getInitialResources`: the starting stock for a difficulty. */
  function InitialResources(d: Difficulty): (r: Resources)
    ensures r.wood > 0 && r.food > 0 && r.gold > 0 && r.stone > 0
  {
    match d
    case Easy => Resources(500, 500, 300, 200)
    case Medium => Resources(300, 300, 200, 100)
    case Hard => Resources(200, 200, 100, 50)
    case Extreme => Resources(100, 100, 50, 25)
  }

  /** A harder difficulty never starts with more of any resource. */
  lemma HarderStartsPoorer(d: Difficulty, e: Difficulty)
    requires Rank(d) <= Rank(e)
    ensures InitialResources(e).wood <= InitialResources(d).wood
    ensures InitialResources(e).food <= InitialResources(d).food
    ensures InitialResources(e).gold <= InitialResources(d).gold
    ensures InitialResources(e).stone <= InitialResources(d).stone
  {
  }

  /** The enemy-village multiplier (1, 1.5, 2, 3), doubled to stay whole. */
  function DoubledMultiplier(d: Difficulty): nat
  {
    match d
    case Easy => 2
    case Medium => 3
    case Hard => 4
    case Extreme => 6
  }

  /** floor(2 * multiplier) enemy houses. */
  function EnemyHouses(d: Difficulty): (n: nat)
    ensures n >= 2
  {
    DoubledMultiplier(d)
  }

  /** floor(1 * multiplier) enemy barracks. */
  function EnemyBarracks(d: Difficulty): (n: nat)
    ensures n >= 1 && 2 * n <= DoubledMultiplier(d) < 2 * n + 2
  {
    DoubledMultiplier(d) / 2
  }

  /** The enemy village has a town hall, its houses and its barracks: 4, 5, 7
      and 10 buildings from easy to extreme, growing with the difficulty. */
  lemma EnemyVillageSizes(d: Difficulty, e: Difficulty)
    ensures 1 + EnemyHouses(Easy) + EnemyBarracks(Easy) == 4
    ensures 1 + EnemyHouses(Medium) + EnemyBarracks(Medium) == 5
    ensures 1 + EnemyHouses(Hard) + EnemyBarracks(Hard) == 7
    ensures 1 + EnemyHouses(Extreme) + EnemyBarracks(Extreme) == 10
    ensures Rank(d) < Rank(e) ==> EnemyHouses(d) + EnemyBarracks(d) < EnemyHouses(e) + EnemyBarracks(e)
  {
  }
}
