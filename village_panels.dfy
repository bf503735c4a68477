/** The village screens' handlers that sequence store actions: building a new
    building (src/components/game/VillageGrid.tsx), starting an upgrade from a
    building card (BuildingCard.tsx) and training a troop (TroopTraining.tsx). */
module VillagePanels {
  import opened Optional
  import opened Ledger
  import opened VillageRules
  import opened VillageStore
  import opened TrainingQueue
  import opened Seqs
  import opened Decimal

  /** The types the build menu offers, in menu order. */
  const BuildMenu: seq<BuildingType> := [GoldMine, ElixirCollector, ArmyCamp, Barracks]

  /** Every type but the town hall is offered. */
  lemma MenuLeavesOutTownHall()
    ensures TownHall !in BuildMenu
    ensures forall t :: t != TownHall ==> t in BuildMenu
  {
  }

  /** The store's name for a building type, used in generated ids. */
  function TypeName(t: BuildingType): string
  {
    match t
    case TownHall => "townhall"
    case GoldMine => "goldmine"
    case ElixirCollector => "elixircollector"
    case ArmyCamp => "armycamp"
    case Barracks => "barracks"
  }

  /** How many existing buildings have type t (the length of the filter). */
  function CountOfKind(bs: seq<Building>, t: BuildingType): (n: nat)
    ensures n <= |bs|
    ensures n == 0 <==> forall i :: 0 <= i < |bs| ==> bs[i].kind != t
  {
    var kept := Filter(bs, (b: Building) => b.kind == t);
    if |kept| > 0 then
      assert kept[0].kind == t && kept[0] in bs;
      |kept|
    else
      |kept|
  }

  /** Adding a building raises exactly its own type's count, by one. */
  lemma CountAfterAdd(bs: seq<Building>, b: Building, t: BuildingType)
    ensures CountOfKind(bs + [b], t) == CountOfKind(bs, t) + (if b.kind == t then 1 else 0)
  {
    FilterAppend(bs, [b], (x: Building) => x.kind == t);
    assert [b][1..] == [];
  }

  /** The record a successful build adds: level 1, not upgrading, at the given
      cell, with an id made of the type name and the clock reading. */
  function NewBuilding(t: BuildingType, x: int, y: int, now: int): (b: Building)
    ensures b.kind == t && b.level == 1 && !b.isUpgrading && b.upgradeEndTime.None?
    ensures b.x == x && b.y == y
    ensures b.id == TypeName(t) + "-" + IntText(now)
  {
    Building(TypeName(t) + "-" + IntText(now), t, 1, x, y, false, None)
  }

  /** Whether both spend steps for a price would succeed; a zero component is
      never charged and so never fails. */
  predicate Affords(gold: int, elixir: int, c: Cost): (ok: bool)
    ensures ok <==> (c.gold == 0 || TrySpend(gold, c.gold).Some?) && (c.elixir == 0 || TrySpend(elixir, c.elixir).Some?)
    ensures gold >= 0 && elixir >= 0 ==> (ok <==> gold >= c.gold && elixir >= c.elixir)
  {
    (c.gold == 0 || gold >= c.gold) && (c.elixir == 0 || elixir >= c.elixir)
  }

  datatype BuildOutcome = NotAllowed | NotEnoughResources | Built

  /** Charge a one-currency price in the handlers' way: each non-zero component
      is spent on its own, and the two results are combined afterwards. */
  method ChargeOneCurrency(v: Village, c: Cost) returns (ok: bool)
    requires c.gold == 0 || c.elixir == 0
    modifies v`gold, v`elixir
    ensures ok <==> Affords(old(v.gold), old(v.elixir), c)
    ensures ok ==> v.gold == old(v.gold) - c.gold && v.elixir == old(v.elixir) - c.elixir
    ensures !ok ==> v.gold == old(v.gold) && v.elixir == old(v.elixir)
  {
    var goldOk := true;
    if c.gold != 0 {
      goldOk := v.SpendGold(c.gold);
    }
    var elixirOk := true;
    if c.elixir != 0 {
      elixirOk := v.SpendElixir(c.elixir);
    }
    ok := goldOk && elixirOk;
  }

  /** `handleBuildNew`: refuse when the build rule forbids one more building of
      that type; otherwise charge the level-1 price and, only when that
      succeeds, add the new building. A refusal and a failed purchase leave
      gold, elixir and the buildings as they were. */
  method HandleBuildNew(v: Village, t: BuildingType, x: int, y: int, now: int) returns (outcome: BuildOutcome)
    requires 0 <= x < 8 && 0 <= y < 8
    modifies v`gold, v`elixir, v`buildings
    ensures outcome == NotAllowed <==> !CanBuildBuilding(t, old(v.townHallLevel), CountOfKind(old(v.buildings), t))
    ensures outcome == Built <==>
      CanBuildBuilding(t, old(v.townHallLevel), CountOfKind(old(v.buildings), t))
      && Affords(old(v.gold), old(v.elixir), BuildingCosts(t)[0])
    ensures outcome == Built ==>
      && v.buildings == old(v.buildings) + [NewBuilding(t, x, y, now)]
      && v.gold == old(v.gold) - BuildingCosts(t)[0].gold
      && v.elixir == old(v.elixir) - BuildingCosts(t)[0].elixir
    ensures outcome != Built ==>
      v.buildings == old(v.buildings) && v.gold == old(v.gold) && v.elixir == old(v.elixir)
  {
    var count := CountOfKind(v.buildings, t);
    if !CanBuildBuilding(t, v.townHallLevel, count) {
      return NotAllowed;
    }
    var cost := BuildingCosts(t)[0];
    CostsUseOneCurrency(t, 0);
    var ok := ChargeOneCurrency(v, cost);
    if ok {
      v.AddBuilding(NewBuilding(t, x, y, now));
      outcome := Built;
    } else {
      outcome := NotEnoughResources;
    }
  }

  /** A successful build adds one building of the requested type and leaves
      every other type's count alone. */
  lemma BuildCountsOne(bs: seq<Building>, t: BuildingType, u: BuildingType, x: int, y: int, now: int)
    ensures CountOfKind(bs + [NewBuilding(t, x, y, now)], u) == CountOfKind(bs, u) + (if u == t then 1 else 0)
  {
    CountAfterAdd(bs, NewBuilding(t, x, y, now), u);
  }

  /** At town-hall level 1 only one gold mine and one elixir collector fit, and
      no army camp or barracks. */
  lemma BuildAtLevelOne(bs: seq<Building>)
    ensures CanBuildBuilding(GoldMine, 1, CountOfKind(bs, GoldMine)) <==> CountOfKind(bs, GoldMine) == 0
    ensures !CanBuildBuilding(ArmyCamp, 1, CountOfKind(bs, ArmyCamp))
    ensures !CanBuildBuilding(Barracks, 1, CountOfKind(bs, Barracks))
  {
  }

  // ---------------------------------------------------------------- building card

  datatype UpgradeOutcome = AtMaxLevel | NotEnough | Started

  /** `handleUpgrade` on the card's building: nothing at the last level;
      otherwise charge the next level's price and start the upgrade only when
      the charge succeeds. */
  method HandleUpgrade(v: Village, b: Building, now: int) returns (outcome: UpgradeOutcome)
    modifies v`gold, v`elixir, v`buildings
    ensures outcome == AtMaxLevel <==> b.level >= LevelCount
    ensures outcome == Started <==>
      b.level < LevelCount && Affords(old(v.gold), old(v.elixir), BuildingCosts(b.kind)[b.level])
    ensures outcome == Started ==>
      && v.buildings == StartUpgrade(old(v.buildings), b.id, now)
      && v.gold == old(v.gold) - BuildingCosts(b.kind)[b.level].gold
      && v.elixir == old(v.elixir) - BuildingCosts(b.kind)[b.level].elixir
    ensures outcome != Started ==>
      v.buildings == old(v.buildings) && v.gold == old(v.gold) && v.elixir == old(v.elixir)
  {
    var cost := GetUpgradeCost(b.kind, b.level);
    if cost.None? {
      return AtMaxLevel;
    }
    CostsUseOneCurrency(b.kind, b.level);
    var ok := ChargeOneCurrency(v, cost.value);
    if ok {
      v.UpgradeBuilding(b.id, now);
      outcome := Started;
    } else {
      outcome := NotEnough;
    }
  }

  /** What the card's body shows. */
  datatype CardBody = UpgradingCountdown | UpgradeOffer(cost: Cost) | MaxLevel

  function Body(b: Building): (c: CardBody)
    ensures c.UpgradingCountdown? <==> b.isUpgrading
    ensures c.UpgradeOffer? <==> !b.isUpgrading && GetUpgradeCost(b.kind, b.level).Some?
    ensures c.UpgradeOffer? ==> Some(c.cost) == GetUpgradeCost(b.kind, b.level)
  {
    if b.isUpgrading then UpgradingCountdown
    else
      match GetUpgradeCost(b.kind, b.level)
      case Some(cost) => UpgradeOffer(cost)
      case None => MaxLevel
  }

  /** "Max Level" shows exactly on an idle building with no next-level price,
      i.e. at level 5 or more. */
  lemma MaxLevelShown(b: Building)
    ensures Body(b) == MaxLevel <==> !b.isUpgrading && b.level >= LevelCount
  {
  }

  /** The card advertises the table's upgrade time, but every upgrade the store
      starts lasts one minute: a level-1 town hall advertises two minutes. */
  lemma AdvertisedTimeIsNotUsed()
    ensures GetUpgradeTime(TownHall, 1).Some?
    ensures GetUpgradeTime(TownHall, 1).value * 1000 != UpgradeDurationMs
  {
  }

  // ---------------------------------------------------------------- troop training

  /** `handleTrainTroop`: spend the troop's elixir price; only on success queue
      one troop that finishes after its training time in milliseconds. */
  method HandleTrainTroop(v: Village, t: TroopType, now: int) returns (queued: bool)
    modifies v`elixir, v`trainingQueue
    ensures queued <==> old(v.elixir) >= TroopCosts(t).elixir
    ensures queued ==>
      && v.trainingQueue == old(v.trainingQueue) + [Entry(t, now + TroopCosts(t).time * 1000)]
      && v.elixir == old(v.elixir) - TroopCosts(t).elixir
    ensures !queued ==> v.trainingQueue == old(v.trainingQueue) && v.elixir == old(v.elixir)
  {
    var cost := TroopCosts(t);
    queued := v.SpendElixir(cost.elixir);
    if queued {
      v.TrainTroop(t, cost.time * 1000, now);
    }
  }
}
