/** The rule tables of the village game and the three lookups over them
    (src/lib/gameConstants.ts), with the entity kinds they are indexed by. */
module VillageRules {
  import opened Optional

  datatype BuildingType = TownHall | GoldMine | ElixirCollector | ArmyCamp | Barracks
  datatype TroopType = Barbarian | Archer | Giant

  /** A price in the two village currencies. */
  datatype Cost = Cost(gold: nat, elixir: nat)

  datatype TroopCost = TroopCost(elixir: nat, time: nat)
  datatype TroopStats = TroopStats(hp: nat, damage: nat, speed: nat)

  /** Number of levels every table describes; level 5 is the last one. */
  const LevelCount: nat := 5

  /** Entry k is the price of reaching level k + 1 (entry 0 is the first build). */
  function BuildingCosts(t: BuildingType): (r: seq<Cost>)
    ensures |r| == LevelCount
  {
    match t
    case TownHall =>
      [Cost(0, 0), Cost(1000, 0), Cost(2500, 0), Cost(5000, 0), Cost(10000, 0)]
    case GoldMine =>
      [Cost(150, 0), Cost(300, 0), Cost(600, 0), Cost(1200, 0), Cost(2400, 0)]
    case ElixirCollector =>
      [Cost(0, 150), Cost(0, 300), Cost(0, 600), Cost(0, 1200), Cost(0, 2400)]
    case ArmyCamp =>
      [Cost(250, 0), Cost(500, 0), Cost(1000, 0), Cost(2000, 0), Cost(4000, 0)]
    case Barracks =>
      [Cost(200, 0), Cost(400, 0), Cost(800, 0), Cost(1600, 0), Cost(3200, 0)]
  }

  /** Upgrade durations in seconds, indexed like BuildingCosts. */
  function UpgradeTimes(t: BuildingType): (r: seq<nat>)
    ensures |r| == LevelCount
  {
    match t
    case TownHall => [0, 120, 180, 240, 300]
    case GoldMine => [30, 60, 90, 120, 150]
    case ElixirCollector => [30, 60, 90, 120, 150]
    case ArmyCamp => [60, 90, 120, 150, 180]
    case Barracks => [60, 90, 120, 150, 180]
  }

  function TroopCosts(t: TroopType): TroopCost
  {
    match t
    case Barbarian => TroopCost(25, 20)
    case Archer => TroopCost(50, 25)
    case Giant => TroopCost(250, 120)
  }

  function Stats(t: TroopType): TroopStats
  {
    match t
    case Barbarian => TroopStats(45, 8, 16)
    case Archer => TroopStats(20, 7, 24)
    case Giant => TroopStats(300, 11, 12)
  }

  /** Minimum town-hall level needed to build a type. */
  function Requirement(t: BuildingType): nat
  {
    match t
    case ArmyCamp => 2
    case Barracks => 2
    case _ => 1
  }

  /** Entry k is how many of a type a level-(k + 1) town hall allows. */
  function MaxBuildings(t: BuildingType): (r: seq<nat>)
    ensures |r| == LevelCount
  {
    match t
    case TownHall => [1, 1, 1, 1, 1]
    case GoldMine => [1, 2, 3, 4, 5]
    case ElixirCollector => [1, 2, 3, 4, 5]
    case ArmyCamp => [0, 1, 2, 3, 4]
    case Barracks => [0, 1, 2, 2, 3]
  }

  /** The price of going from currentLevel to currentLevel + 1; None ("max level")
      once the table has no entry for it. */
  function GetUpgradeCost(t: BuildingType, currentLevel: nat): (r: Option<Cost>)
    ensures r.None? <==> currentLevel >= LevelCount
    ensures r.Some? ==> r.value == BuildingCosts(t)[currentLevel]
  {
    var costs := BuildingCosts(t);
    if currentLevel >= |costs| then None else Some(costs[currentLevel])
  }

  /** The upgrade duration in seconds, with the same max-level cut-off. */
  function GetUpgradeTime(t: BuildingType, currentLevel: nat): (r: Option<nat>)
    ensures r.None? <==> currentLevel >= LevelCount
    ensures r.Some? ==> r.value == UpgradeTimes(t)[currentLevel]
  {
    var times := UpgradeTimes(t);
    if currentLevel >= |times| then None else Some(times[currentLevel])
  }

  /** Whether one more building of type t may be built. A town-hall level above
      the table reads an undefined entry, and `count < undefined` is false.
      The limit table is 0 at every level below the requirement, so for a
      non-negative count the limit check alone decides. */
  function CanBuildBuilding(t: BuildingType, townHallLevel: int, currentCount: int): (ok: bool)
    ensures ok ==> Requirement(t) <= townHallLevel <= LevelCount && currentCount < MaxBuildings(t)[townHallLevel - 1]
    ensures currentCount >= 0 ==>
      (ok <==> 1 <= townHallLevel <= LevelCount && currentCount < MaxBuildings(t)[townHallLevel - 1])
  {
    if townHallLevel < Requirement(t) then
      assert 1 <= townHallLevel ==> MaxBuildings(t)[townHallLevel - 1] == 0;
      false
    else if townHallLevel > LevelCount then false
    else currentCount < MaxBuildings(t)[townHallLevel - 1]
  }

  /** The cost and time lookups agree on where the last level is. */
  lemma UpgradeLookupsAgree(t: BuildingType, currentLevel: nat)
    ensures GetUpgradeCost(t, currentLevel).None? <==> GetUpgradeTime(t, currentLevel).None?
  {
  }

  /** Every upgrade a building of level 1 to 4 can take has a positive price. */
  lemma UpgradesAreNeverFree(t: BuildingType, currentLevel: nat)
    requires 1 <= currentLevel < LevelCount
    ensures GetUpgradeCost(t, currentLevel).Some?
    ensures GetUpgradeCost(t, currentLevel).value.gold + GetUpgradeCost(t, currentLevel).value.elixir > 0
  {
  }

  /** Below the required town-hall level nothing may be built; army camps and
      barracks need level 2. */
  lemma RequirementGate(t: BuildingType, townHallLevel: int, currentCount: int)
    requires townHallLevel < Requirement(t)
    ensures !CanBuildBuilding(t, townHallLevel, currentCount)
    ensures (t == ArmyCamp || t == Barracks) ==> townHallLevel < 2
  {
  }

  /** At most one town hall, whatever the town-hall level. */
  lemma TownHallCappedAtOne(townHallLevel: int, currentCount: int)
    requires CanBuildBuilding(TownHall, townHallLevel, currentCount)
    ensures currentCount < 1
  {
  }

  /** A higher town hall never allows fewer buildings of any type. */
  lemma MaxBuildingsMonotone(t: BuildingType, i: nat, j: nat)
    requires i <= j < LevelCount
    ensures MaxBuildings(t)[i] <= MaxBuildings(t)[j]
  {
  }

  /** Every price names at most one currency: gold or elixir is 0. */
  lemma CostsUseOneCurrency(t: BuildingType, k: nat)
    requires k < LevelCount
    ensures BuildingCosts(t)[k].gold == 0 || BuildingCosts(t)[k].elixir == 0
  {
  }
}
