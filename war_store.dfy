/** The war game's store (src/lib/maxWarStore.ts): four resource counters, a
    population cap and usage count, player and enemy buildings and units, and
    a unit-training queue. The clock is a `now` parameter; 3D positions are
    not modelled. */
module WarStore {
  import opened Optional
  import opened WarRules
  import opened TrainingQueue
  import opened Seqs
  import opened Decimal
  import Ledger

  datatype Owner = Player | Enemy

  datatype WarBuilding = WarBuilding(
    id: string,
    kind: WarBuildingType,
    level: nat,
    owner: Owner,
    health: int,
    maxHealth: int,
    isConstructing: bool,
    constructionEndTime: Option<int>)

  datatype Unit = Unit(id: string, kind: UnitType, owner: Owner, health: int, maxHealth: int)

  /** A resource record whose fields may be absent. */
  datatype PartialResources = PartialResources(
    wood: Option<int>, food: Option<int>, gold: Option<int>, stone: Option<int>)

  /** The smallest population cap, and the step a house adds or removes. */
  const BaseCap: int := 5
  const HouseCapacity: int := 5

  // ---------------------------------------------------------------- resources

  /** `amount || 0`: an absent amount counts as zero. */
  function OrZero(o: Option<int>): int
  {
    match o
    case None => 0
    case Some(n) => n
  }

  /** The amounts a partial record stands for. */
  function Amounts(p: PartialResources): Resources
  {
    Resources(OrZero(p.wood), OrZero(p.food), OrZero(p.gold), OrZero(p.stone))
  }

  /** A complete record, every field present. */
  function Whole(r: Resources): (p: PartialResources)
    ensures Amounts(p) == r
  {
    PartialResources(Some(r.wood), Some(r.food), Some(r.gold), Some(r.stone))
  }

  function Plus(a: Resources, b: Resources): Resources
  {
    Resources(a.wood + b.wood, a.food + b.food, a.gold + b.gold, a.stone + b.stone)
  }

  predicate NonNegative(r: Resources)
  {
    r.wood >= 0 && r.food >= 0 && r.gold >= 0 && r.stone >= 0
  }

  /** Every balance covers the matching cost component. */
  predicate Covers(res: Resources, cost: Resources)
  {
    res.wood >= cost.wood && res.food >= cost.food && res.gold >= cost.gold && res.stone >= cost.stone
  }

  /** `spendResources` on the counters: all four components or none. */
  function TrySpendAll(res: Resources, cost: PartialResources): (r: Option<Resources>)
    ensures r.Some? <==> Covers(res, Amounts(cost))
    ensures r.Some? ==> Plus(r.value, Amounts(cost)) == res && NonNegative(r.value)
  {
    var c := Amounts(cost);
    if Covers(res, c) then
      Some(Resources(res.wood - c.wood, res.food - c.food, res.gold - c.gold, res.stone - c.stone))
    else
      None
  }

  /** Spending what was just added, from a non-negative stock, succeeds and
      gives the stock back. */
  lemma SpendAfterCredit(res: Resources, p: PartialResources)
    requires NonNegative(res)
    ensures TrySpendAll(Plus(res, Amounts(p)), p) == Some(res)
  {
  }

  // ---------------------------------------------------------------- buildings

  /** Index k holds the first building with that id. */
  predicate FirstAt(bs: seq<WarBuilding>, id: string, k: int)
  {
    0 <= k < |bs| && bs[k].id == id && forall j :: 0 <= j < k ==> bs[j].id != id
  }

  /** The first building with that id (`find`), if any. */
  function FirstWithId(bs: seq<WarBuilding>, id: string): (r: Option<WarBuilding>)
    ensures r.None? <==> forall i :: 0 <= i < |bs| ==> bs[i].id != id
    ensures r.Some? ==> exists k :: FirstAt(bs, id, k) && bs[k] == r.value
  {
    if |bs| == 0 then None
    else if bs[0].id == id then Some(bs[0])
    else
      var r := FirstWithId(bs[1..], id);
      if r.Some? then
        var k :| FirstAt(bs[1..], id, k) && bs[1..][k] == r.value;
        assert FirstAt(bs, id, k + 1);
        r
      else
        r
  }

  /** The cap after `addBuilding`: a player house adds five places. */
  function RaisedCap(cap: int, b: WarBuilding): (c: int)
    ensures c >= cap
    ensures c != cap <==> b.kind == House && b.owner == Player
    ensures c != cap ==> c == cap + HouseCapacity
  {
    if b.kind == House && b.owner == Player then cap + HouseCapacity else cap
  }

  /** The cap after `removeBuilding` on the player's list: when the first
      building with that id is a house, five places go, but never below five. */
  function LoweredCap(cap: int, bs: seq<WarBuilding>, id: string): (c: int)
    ensures cap >= BaseCap ==> BaseCap <= c <= cap
    ensures FirstWithId(bs, id).Some? && FirstWithId(bs, id).value.kind == House ==>
      c >= BaseCap && (c == cap - HouseCapacity || (c == BaseCap && cap - HouseCapacity <= BaseCap))
    ensures !(FirstWithId(bs, id).Some? && FirstWithId(bs, id).value.kind == House) ==> c == cap
  {
    match FirstWithId(bs, id)
    case Some(b) =>
      if b.kind == House then (if cap - HouseCapacity > BaseCap then cap - HouseCapacity else BaseCap) else cap
    case None => cap
  }

  /** `filter(b => b.id !== id)`. */
  function DropBuilding(bs: seq<WarBuilding>, id: string): (r: seq<WarBuilding>)
    ensures forall i :: 0 <= i < |r| ==> r[i].id != id && r[i] in bs
    ensures forall i :: 0 <= i < |bs| && bs[i].id != id ==> bs[i] in r
  {
    Filter(bs, (b: WarBuilding) => b.id != id)
  }

  /** Removing a player building just added undoes the addition, the cap
      included, whenever the cap was at least five. */
  lemma RemoveUndoesAdd(cap: int, bs: seq<WarBuilding>, b: WarBuilding)
    requires cap >= BaseCap && b.owner == Player
    requires forall i :: 0 <= i < |bs| ==> bs[i].id != b.id
    ensures DropBuilding(bs + [b], b.id) == bs
    ensures LoweredCap(RaisedCap(cap, b), bs + [b], b.id) == cap
  {
    var keep := (x: WarBuilding) => x.id != b.id;
    FilterAppend(bs, [b], keep);
    FilterKeepsAll(bs, keep);
    assert [b][1..] == [];
    assert FirstWithId([b], b.id) == Some(b);
    FirstOfAppend(bs, b);
  }

  lemma {:induction false} FirstOfAppend(bs: seq<WarBuilding>, b: WarBuilding)
    requires forall i :: 0 <= i < |bs| ==> bs[i].id != b.id
    ensures FirstWithId(bs + [b], b.id) == Some(b)
  {
    if |bs| > 0 {
      assert (bs + [b])[1..] == bs[1..] + [b];
      FirstOfAppend(bs[1..], b);
    }
  }

  /** Usage within the cap is not kept: removing the only house of a full
      village of ten leaves the cap at five. */
  lemma RemovingAHouseCanOverfill()
    ensures var h := WarBuilding("h", House, 1, Player, 500, 500, false, None);
      LoweredCap(10, [h], "h") == 5
  {
  }

  /** `upgradeBuildingHealth` on one building: health rises by the amount but
      never past the maximum. */
  function Healed(b: WarBuilding, amount: int): (h: WarBuilding)
    ensures h.health <= h.maxHealth
    ensures h.health <= b.health + amount
    ensures h.health == b.maxHealth || h.health == b.health + amount
    ensures h.(health := b.health) == b
  {
    b.(health := if b.health + amount < b.maxHealth then b.health + amount else b.maxHealth)
  }

  /** Two heals, the second non-negative, are one heal by the sum. */
  lemma HealComposes(b: WarBuilding, x: int, y: int)
    requires y >= 0
    ensures Healed(Healed(b, x), y) == Healed(b, x + y)
  {
  }

  /** The building with that id is healed; every other building is unchanged. */
  function HealAll(bs: seq<WarBuilding>, id: string, amount: int): (r: seq<WarBuilding>)
    ensures |r| == |bs|
    ensures forall i :: 0 <= i < |bs| ==> r[i] == if bs[i].id == id then Healed(bs[i], amount) else bs[i]
  {
    if |bs| == 0 then [] else [if bs[0].id == id then Healed(bs[0], amount) else bs[0]] + HealAll(bs[1..], id, amount)
  }

  /** The sum of the levels of finished buildings of type t. */
  function ActiveLevels(bs: seq<WarBuilding>, t: WarBuildingType): (n: nat)
    ensures (forall i :: 0 <= i < |bs| ==> bs[i].kind != t || bs[i].isConstructing) ==> n == 0
  {
    if |bs| == 0 then 0
    else
      var last := bs[|bs| - 1];
      ActiveLevels(bs[..|bs| - 1], t) + (if last.kind == t && !last.isConstructing then last.level else 0)
  }

  /** A building still under construction adds nothing to production. */
  lemma ConstructingAddsNothing(bs: seq<WarBuilding>, b: WarBuilding, t: WarBuildingType)
    requires b.isConstructing
    ensures ActiveLevels(bs + [b], t) == ActiveLevels(bs, t)
  {
    assert (bs + [b])[..|bs|] == bs;
  }

  /** Extending the prefix by one building adds that building's share. */
  lemma ActiveLevelsStep(bs: seq<WarBuilding>, i: int, t: WarBuildingType)
    requires 0 <= i < |bs|
    ensures ActiveLevels(bs[..i + 1], t) ==
      ActiveLevels(bs[..i], t) + (if bs[i].kind == t && !bs[i].isConstructing then bs[i].level else 0)
  {
    assert bs[..i + 1][..i] == bs[..i];
  }

  /** The per-type sums the tick accumulates, skipping buildings under
      construction. */
  method ProductionLevels(bs: seq<WarBuilding>) returns (lumber: nat, farm: nat, mine: nat)
    ensures lumber == ActiveLevels(bs, LumberMill)
    ensures farm == ActiveLevels(bs, Farm)
    ensures mine == ActiveLevels(bs, Mine)
  {
    lumber, farm, mine := 0, 0, 0;
    var i := 0;
    while i < |bs|
      invariant 0 <= i <= |bs|
      invariant lumber == ActiveLevels(bs[..i], LumberMill)
      invariant farm == ActiveLevels(bs[..i], Farm)
      invariant mine == ActiveLevels(bs[..i], Mine)
    {
      ActiveLevelsStep(bs, i, LumberMill);
      ActiveLevelsStep(bs, i, Farm);
      ActiveLevelsStep(bs, i, Mine);
      var b := bs[i];
      if !b.isConstructing {
        if b.kind == LumberMill {
          lumber := lumber + b.level;
        } else if b.kind == Farm {
          farm := farm + b.level;
        } else if b.kind == Mine {
          mine := mine + b.level;
        }
      }
      i := i + 1;
    }
    assert bs[..i] == bs;
  }

  // ---------------------------------------------------------------- units

  /** `filter(u => u.id !== id)`. */
  function DropUnit(us: seq<Unit>, id: string): (r: seq<Unit>)
    ensures forall i :: 0 <= i < |r| ==> r[i].id != id && r[i] in us
    ensures forall i :: 0 <= i < |us| && us[i].id != id ==> us[i] in r
  {
    Filter(us, (u: Unit) => u.id != id)
  }

  predicate HasUnit(us: seq<Unit>, id: string)
  {
    exists i :: 0 <= i < |us| && us[i].id == id
  }

  function RecruitId(now: int, index: nat): string
  {
    "player-unit-" + IntText(now) + "-" + NatText(index)
  }

  /** The unit made from the index-th completed entry. */
  function Recruit(kind: UnitType, now: int, index: nat): Unit
  {
    Unit(RecruitId(now, index), kind, Player, 100, 100)
  }

  function Recruits(completed: seq<Entry<UnitType>>, now: int): seq<Unit>
  {
    seq(|completed|, i requires 0 <= i < |completed| => Recruit(completed[i].kind, now, i))
  }

  /** Recruits made in one promotion are player units at full health of 100,
      one per completed entry, of its kind, with distinct ids. */
  lemma RecruitsShape(completed: seq<Entry<UnitType>>, now: int)
    ensures |Recruits(completed, now)| == |completed|
    ensures forall i :: 0 <= i < |completed| ==>
      var u := Recruits(completed, now)[i];
      u.kind == completed[i].kind && u.owner == Player && u.health == u.maxHealth == 100
    ensures forall i, j :: 0 <= i < j < |completed| ==> Recruits(completed, now)[i].id != Recruits(completed, now)[j].id
  {
    forall i, j | 0 <= i < j < |completed|
      ensures Recruits(completed, now)[i].id != Recruits(completed, now)[j].id
    {
      RecruitIdsDiffer(now, i, j);
    }
  }

  /** Ids made at the same instant differ when their indices do. */
  lemma RecruitIdsDiffer(now: int, i: nat, j: nat)
    requires i != j
    ensures RecruitId(now, i) != RecruitId(now, j)
  {
    var prefix := "player-unit-" + IntText(now) + "-";
    assert RecruitId(now, i)[|prefix|..] == NatText(i);
    assert RecruitId(now, j)[|prefix|..] == NatText(j);
    NatTextInjective(i, j);
  }

  /** The loop that turns completed entries into units. */
  method TrainedUnits(completed: seq<Entry<UnitType>>, now: int) returns (units: seq<Unit>)
    ensures units == Recruits(completed, now)
  {
    units := [];
    var i := 0;
    while i < |completed|
      invariant 0 <= i <= |completed|
      invariant units == Recruits(completed, now)[..i]
    {
      var u := Recruit(completed[i].kind, now, i);
      assert Recruits(completed, now)[..i + 1] == Recruits(completed, now)[..i] + [u];
      units := units + [u];
      i := i + 1;
    }
    assert Recruits(completed, now)[..i] == Recruits(completed, now);
  }

  // ---------------------------------------------------------------- villages

  const PlayerTownHall: WarBuilding := WarBuilding("player-townhall", TownHall, 1, Player, 1000, 1000, false, None)

  const EnemyTownHall: WarBuilding := WarBuilding("enemy-townhall", TownHall, 1, Enemy, 1000, 1000, false, None)

  function EnemyHouse(i: nat): WarBuilding
  {
    WarBuilding("enemy-house-" + NatText(i), House, 1, Enemy, 500, 500, false, None)
  }

  function EnemyBarracksAt(i: nat): WarBuilding
  {
    WarBuilding("enemy-barracks-" + NatText(i), Barracks, 1, Enemy, 800, 800, false, None)
  }

  /** The enemy village for a difficulty: its town hall, then its houses,
      then its barracks. */
  function EnemyVillage(d: Difficulty): seq<WarBuilding>
  {
    [EnemyTownHall]
      + seq(EnemyHouses(d), i requires 0 <= i => EnemyHouse(i))
      + seq(EnemyBarracks(d), i requires 0 <= i => EnemyBarracksAt(i))
  }

  /** Every enemy building is finished, enemy-owned, level 1, at the full
      health its type's table gives, and its id is unique. */
  lemma EnemyVillageShape(d: Difficulty)
    ensures |EnemyVillage(d)| == 1 + EnemyHouses(d) + EnemyBarracks(d)
    ensures EnemyVillage(d)[0].kind == TownHall
    ensures forall i :: 0 <= i < |EnemyVillage(d)| ==>
      var b := EnemyVillage(d)[i];
      b.owner == Enemy && b.level == 1 && !b.isConstructing &&
      b.health == b.maxHealth == BuildingHealth(b.kind)
    ensures forall i :: 1 <= i <= EnemyHouses(d) ==> EnemyVillage(d)[i].kind == House
    ensures forall i :: 1 + EnemyHouses(d) <= i < |EnemyVillage(d)| ==> EnemyVillage(d)[i].kind == Barracks
    ensures forall i, j :: 0 <= i < j < |EnemyVillage(d)| ==> EnemyVillage(d)[i].id != EnemyVillage(d)[j].id
  {
    var v := EnemyVillage(d);
    forall i | 0 <= i < |v| ensures v[i] == EnemyVillageAt(EnemyHouses(d), i) {
      EnemyVillageIndex(d, i);
    }
    forall i, j | 0 <= i < j < |v| ensures v[i].id != v[j].id {
      EnemyVillageIndex(d, i);
      EnemyVillageIndex(d, j);
      EnemyIdsDiffer(EnemyHouses(d), EnemyBarracks(d), i, j);
    }
  }

  /** Position i of the enemy village, read off its three parts. */
  function EnemyVillageAt(houses: nat, i: nat): WarBuilding
  {
    if i == 0 then EnemyTownHall
    else if i <= houses then EnemyHouse(i - 1)
    else EnemyBarracksAt(i - 1 - houses)
  }

  lemma EnemyVillageIndex(d: Difficulty, i: nat)
    requires i < |EnemyVillage(d)|
    ensures EnemyVillage(d)[i] == EnemyVillageAt(EnemyHouses(d), i)
  {
  }

  lemma EnemyIdsDiffer(h: nat, barracks: nat, i: nat, j: nat)
    requires i < j < 1 + h + barracks
    ensures EnemyVillageAt(h, i).id != EnemyVillageAt(h, j).id
  {
    var a, b := EnemyVillageAt(h, i).id, EnemyVillageAt(h, j).id;
    if i == 0 || (i <= h && h < j) {
      // the town hall, house and barracks ids first differ at index 6
      assert a[6] != b[6];
    } else if j <= h {
      SuffixDiffers("enemy-house-", i - 1, j - 1);
    } else {
      SuffixDiffers("enemy-barracks-", i - 1 - h, j - 1 - h);
    }
  }

  lemma SuffixDiffers(prefix: string, i: nat, j: nat)
    requires i != j
    ensures prefix + NatText(i) != prefix + NatText(j)
  {
    assert (prefix + NatText(i))[|prefix|..] == NatText(i);
    assert (prefix + NatText(j))[|prefix|..] == NatText(j);
    NatTextInjective(i, j);
  }

  /** `createEnemyVillage`: push the town hall, then each house, then each
      barracks. */
  method CreateEnemyVillage(d: Difficulty) returns (village: seq<WarBuilding>)
    ensures village == EnemyVillage(d)
  {
    village := [EnemyTownHall];
    var houses := EnemyHouses(d);
    var barracks := EnemyBarracks(d);
    var i := 0;
    while i < houses
      invariant 0 <= i <= houses
      invariant |village| == 1 + i
      invariant forall k :: 0 <= k < |village| ==> village[k] == EnemyVillageAt(houses, k)
    {
      village := village + [EnemyHouse(i)];
      i := i + 1;
    }
    i := 0;
    while i < barracks
      invariant 0 <= i <= barracks
      invariant |village| == 1 + houses + i
      invariant forall k :: 0 <= k < |village| ==> village[k] == EnemyVillageAt(houses, k)
    {
      village := village + [EnemyBarracksAt(i)];
      i := i + 1;
    }
    assert |EnemyVillage(d)| == |village|;
    forall k | 0 <= k < |village| ensures village[k] == EnemyVillage(d)[k] {
      EnemyVillageIndex(d, k);
    }
  }

  // ---------------------------------------------------------------- the store

  class WarGame {
    var difficulty: Option<Difficulty>
    var gameStarted: bool
    var resources: Resources
    var populationCap: int
    var currentPopulation: int
    var playerBuildings: seq<WarBuilding>
    var enemyBuildings: seq<WarBuilding>
    var playerUnits: seq<Unit>
    var enemyUnits: seq<Unit>
    var trainingQueue: seq<Entry<UnitType>>
    var lastUpdate: int

    /** The cap never drops below five and usage is never negative. Usage
        within the cap is not part of it (see RemovingAHouseCanOverfill). */
    ghost predicate Valid()
      reads this
    {
      populationCap >= BaseCap && currentPopulation >= 0
    }

    /** The initial state; `loadTime` is the clock reading when the store
        module was loaded. */
    constructor (loadTime: int)
      ensures Valid()
      ensures difficulty.None? && !gameStarted && resources == Resources(0, 0, 0, 0)
      ensures populationCap == BaseCap && currentPopulation == 0
      ensures playerBuildings == [] && enemyBuildings == [] && playerUnits == [] && enemyUnits == []
      ensures trainingQueue == [] && lastUpdate == loadTime
    {
      difficulty, gameStarted := None, false;
      resources := Resources(0, 0, 0, 0);
      populationCap, currentPopulation := BaseCap, 0;
      playerBuildings, enemyBuildings := [], [];
      playerUnits, enemyUnits := [], [];
      trainingQueue := [];
      lastUpdate := loadTime;
    }

    method SetDifficulty(d: Difficulty)
      modifies this`difficulty
      ensures difficulty == Some(d)
    {
      difficulty := Some(d);
    }

    /** `startGame`: without a difficulty nothing happens; otherwise the stock,
        both villages and the clock are set. Cap, usage, units and queue are
        left as they were. */
    method StartGame(now: int)
      modifies this`gameStarted, this`resources, this`playerBuildings, this`enemyBuildings, this`lastUpdate
      ensures difficulty.None? ==>
        && gameStarted == old(gameStarted) && resources == old(resources)
        && playerBuildings == old(playerBuildings) && enemyBuildings == old(enemyBuildings)
        && lastUpdate == old(lastUpdate)
      ensures difficulty.Some? ==>
        && gameStarted && resources == InitialResources(difficulty.value)
        && playerBuildings == [PlayerTownHall] && enemyBuildings == EnemyVillage(difficulty.value)
        && lastUpdate == now
    {
      if difficulty.None? {
        return;
      }
      var village := CreateEnemyVillage(difficulty.value);
      gameStarted := true;
      resources := InitialResources(difficulty.value);
      playerBuildings := [PlayerTownHall];
      enemyBuildings := village;
      lastUpdate := now;
    }

    /** `resetGame` restores the initial state, load-time clock reading included. */
    method ResetGame(loadTime: int)
      modifies this
      ensures Valid()
      ensures difficulty.None? && !gameStarted && resources == Resources(0, 0, 0, 0)
      ensures populationCap == BaseCap && currentPopulation == 0
      ensures playerBuildings == [] && enemyBuildings == [] && playerUnits == [] && enemyUnits == []
      ensures trainingQueue == [] && lastUpdate == loadTime
    {
      difficulty, gameStarted := None, false;
      resources := Resources(0, 0, 0, 0);
      populationCap, currentPopulation := BaseCap, 0;
      playerBuildings, enemyBuildings := [], [];
      playerUnits, enemyUnits := [], [];
      trainingQueue := [];
      lastUpdate := loadTime;
    }

    method AddResources(p: PartialResources)
      modifies this`resources
      ensures resources == Plus(old(resources), Amounts(p))
    {
      resources := Plus(resources, Amounts(p));
    }

    method SpendResources(cost: PartialResources) returns (ok: bool)
      modifies this`resources
      ensures ok <==> Covers(old(resources), Amounts(cost))
      ensures ok ==> Plus(resources, Amounts(cost)) == old(resources)
      ensures !ok ==> resources == old(resources)
    {
      var r := TrySpendAll(resources, cost);
      if r.Some? {
        resources := r.value;
        ok := true;
      } else {
        ok := false;
      }
    }

    /** `addBuilding`: append to the owner's list; a player house raises the cap. */
    method AddBuilding(b: WarBuilding)
      requires Valid()
      modifies this`playerBuildings, this`enemyBuildings, this`populationCap
      ensures Valid()
      ensures populationCap == RaisedCap(old(populationCap), b)
      ensures b.owner == Player ==> playerBuildings == old(playerBuildings) + [b] && enemyBuildings == old(enemyBuildings)
      ensures b.owner == Enemy ==> enemyBuildings == old(enemyBuildings) + [b] && playerBuildings == old(playerBuildings)
    {
      if b.owner == Player {
        playerBuildings := playerBuildings + [b];
        populationCap := RaisedCap(populationCap, b);
      } else {
        enemyBuildings := enemyBuildings + [b];
      }
    }

    /** `removeBuilding`: a player building with that id takes precedence; the
        enemy list is filtered only when the player has none. */
    method RemoveBuilding(id: string)
      requires Valid()
      modifies this`playerBuildings, this`enemyBuildings, this`populationCap
      ensures Valid()
      ensures FirstWithId(old(playerBuildings), id).Some? ==>
        && playerBuildings == DropBuilding(old(playerBuildings), id)
        && populationCap == LoweredCap(old(populationCap), old(playerBuildings), id)
        && enemyBuildings == old(enemyBuildings)
      ensures FirstWithId(old(playerBuildings), id).None? ==>
        && enemyBuildings == DropBuilding(old(enemyBuildings), id)
        && playerBuildings == old(playerBuildings) && populationCap == old(populationCap)
    {
      if FirstWithId(playerBuildings, id).Some? {
        populationCap := LoweredCap(populationCap, playerBuildings, id);
        playerBuildings := DropBuilding(playerBuildings, id);
      } else {
        enemyBuildings := DropBuilding(enemyBuildings, id);
      }
    }

    method UpgradeBuildingHealth(id: string, amount: int)
      modifies this`playerBuildings, this`enemyBuildings
      ensures playerBuildings == HealAll(old(playerBuildings), id, amount)
      ensures enemyBuildings == HealAll(old(enemyBuildings), id, amount)
    {
      playerBuildings := HealAll(playerBuildings, id, amount);
      enemyBuildings := HealAll(enemyBuildings, id, amount);
    }

    method TrainUnit(kind: UnitType, duration: int, now: int)
      modifies this`trainingQueue
      ensures trainingQueue == old(trainingQueue) + [Entry(kind, now + duration)]
    {
      trainingQueue := trainingQueue + [Entry(kind, now + duration)];
    }

    /** Promote every due entry to a new player unit; usage grows by the
        number promoted, so usage plus queue length is kept. */
    method CompleteUnitTraining(now: int)
      requires Valid()
      modifies this`playerUnits, this`trainingQueue, this`currentPopulation
      ensures Valid()
      ensures trainingQueue == Remaining(old(trainingQueue), now)
      ensures playerUnits == old(playerUnits) + Recruits(Completed(old(trainingQueue), now), now)
      ensures currentPopulation == old(currentPopulation) + |Completed(old(trainingQueue), now)|
      ensures currentPopulation + |trainingQueue| == old(currentPopulation) + |old(trainingQueue)|
    {
      var completed := Completed(trainingQueue, now);
      var remaining := Remaining(trainingQueue, now);
      Partition(trainingQueue, now);
      var recruits := TrainedUnits(completed, now);
      playerUnits := playerUnits + recruits;
      trainingQueue := remaining;
      currentPopulation := currentPopulation + |completed|;
    }

    method AddUnit(u: Unit)
      requires Valid()
      modifies this`playerUnits, this`enemyUnits, this`currentPopulation
      ensures Valid()
      ensures u.owner == Player ==>
        playerUnits == old(playerUnits) + [u] && currentPopulation == old(currentPopulation) + 1 && enemyUnits == old(enemyUnits)
      ensures u.owner == Enemy ==>
        enemyUnits == old(enemyUnits) + [u] && currentPopulation == old(currentPopulation) && playerUnits == old(playerUnits)
    {
      if u.owner == Player {
        playerUnits := playerUnits + [u];
        currentPopulation := currentPopulation + 1;
      } else {
        enemyUnits := enemyUnits + [u];
      }
    }

    /** `removeUnit`: a player unit with that id takes precedence; usage drops
        by one but never below zero. */
    method RemoveUnit(id: string)
      requires Valid()
      modifies this`playerUnits, this`enemyUnits, this`currentPopulation
      ensures Valid()
      ensures HasUnit(old(playerUnits), id) ==>
        && playerUnits == DropUnit(old(playerUnits), id) && enemyUnits == old(enemyUnits)
        && currentPopulation == (if old(currentPopulation) > 0 then old(currentPopulation) - 1 else 0)
      ensures !HasUnit(old(playerUnits), id) ==>
        && enemyUnits == DropUnit(old(enemyUnits), id) && playerUnits == old(playerUnits)
        && currentPopulation == old(currentPopulation)
    {
      if HasUnit(playerUnits, id) {
        playerUnits := DropUnit(playerUnits, id);
        currentPopulation := if currentPopulation - 1 > 0 then currentPopulation - 1 else 0;
      } else {
        enemyUnits := DropUnit(enemyUnits, id);
      }
    }

    /** `updateGame`: per second, one wood per lumber-mill level, one food per
        farm level, half a gold and half a stone per mine level, over finished
        buildings only, floored over the milliseconds since the last tick. */
    method UpdateGame(now: int)
      modifies this`resources, this`lastUpdate
      ensures var elapsed := now - old(lastUpdate);
        resources == Plus(old(resources), Resources(
          Ledger.Gain(ActiveLevels(playerBuildings, LumberMill), elapsed, 1000),
          Ledger.Gain(ActiveLevels(playerBuildings, Farm), elapsed, 1000),
          Ledger.Gain(ActiveLevels(playerBuildings, Mine), elapsed, 2000),
          Ledger.Gain(ActiveLevels(playerBuildings, Mine), elapsed, 2000)))
      ensures lastUpdate == now
      ensures now >= old(lastUpdate) ==> Covers(resources, old(resources))
    {
      var lumber, farm, mine := ProductionLevels(playerBuildings);
      var elapsed := now - lastUpdate;
      resources := Plus(resources, Resources(
        Ledger.Gain(lumber, elapsed, 1000),
        Ledger.Gain(farm, elapsed, 1000),
        Ledger.Gain(mine, elapsed, 2000),
        Ledger.Gain(mine, elapsed, 2000)));
      lastUpdate := now;
    }
  }
}
