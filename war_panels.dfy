/** The war screen's handlers that sequence store actions: placing a building
    (src/components/game/BuildingPanel.tsx) and training a unit
    (src/components/game/UnitTrainingPanel.tsx), with the predicates that
    enable their buttons. */
module WarPanels {
  import opened Optional
  import opened WarRules
  import opened WarStore
  import opened TrainingQueue
  import opened Decimal

  /** The types the build panel offers, in panel order. */
  const BuildMenu: seq<WarBuildingType> := [House, Barracks, Farm, LumberMill, Mine, StoreHouse, Wall]

  /** Every type but the town hall is offered. */
  lemma MenuLeavesOutTownHall()
    ensures TownHall !in BuildMenu
    ensures forall t :: t != TownHall ==> t in BuildMenu
  {
  }

  /** The panel's affordability test: every balance covers its component.
      It agrees with the store's: a complete cost record is spent exactly
      when it is affordable, and the stock left is then non-negative. */
  predicate CanAfford(res: Resources, cost: Resources): (ok: bool)
    ensures ok <==> TrySpendAll(res, Whole(cost)).Some?
    ensures ok ==> Plus(TrySpendAll(res, Whole(cost)).value, cost) == res
  {
    res.wood >= cost.wood && res.food >= cost.food && res.gold >= cost.gold && res.stone >= cost.stone
  }

  // ---------------------------------------------------------------- building

  /** The record a successful build adds: a player building of level 1, under
      construction, at the full health of its type, due after its
      construction time. */
  function NewWarBuilding(t: WarBuildingType, now: int): (b: WarBuilding)
    ensures b.kind == t && b.owner == Player && b.level == 1 && b.isConstructing
    ensures b.health == b.maxHealth == BuildingHealth(t)
    ensures b.constructionEndTime == Some(now + ConstructionTime(t) * 1000)
    ensures b.id == "player-" + TypeName(t) + "-" + IntText(now)
  {
    WarBuilding("player-" + TypeName(t) + "-" + IntText(now), t, 1, Player,
      BuildingHealth(t), BuildingHealth(t), true, Some(now + ConstructionTime(t) * 1000))
  }

  /** `handleBuild`: spend the type's whole price; only on success add the new
      building, which for a house raises the cap at once. */
  method HandleBuild(g: WarGame, t: WarBuildingType, now: int) returns (built: bool)
    requires g.Valid()
    modifies g`resources, g`playerBuildings, g`enemyBuildings, g`populationCap
    ensures g.Valid()
    ensures built <==> CanAfford(old(g.resources), BuildingCost(t))
    ensures built ==>
      && g.playerBuildings == old(g.playerBuildings) + [NewWarBuilding(t, now)]
      && Plus(g.resources, BuildingCost(t)) == old(g.resources)
      && g.populationCap == old(g.populationCap) + (if t == House then HouseCapacity else 0)
    ensures !built ==>
      g.playerBuildings == old(g.playerBuildings) && g.resources == old(g.resources)
      && g.populationCap == old(g.populationCap)
    ensures g.enemyBuildings == old(g.enemyBuildings)
  {
    var cost := BuildingCost(t);
    built := g.SpendResources(Whole(cost));
    if built {
      g.AddBuilding(NewWarBuilding(t, now));
    }
  }

  /** Some finished barracks exists (`some`). */
  function HasBarracks(bs: seq<WarBuilding>): (b: bool)
    ensures b <==> exists i :: 0 <= i < |bs| && bs[i].kind == Barracks && !bs[i].isConstructing
  {
    if |bs| == 0 then false
    else if bs[0].kind == Barracks && !bs[0].isConstructing then true
    else
      var rest := HasBarracks(bs[1..]);
      if rest then
        var i :| 0 <= i < |bs[1..]| && bs[1..][i].kind == Barracks && !bs[1..][i].isConstructing;
        assert bs[i + 1] == bs[1..][i];
        rest
      else
        rest
  }

  /** A building placed from the panel is under construction, and nothing
      finishes construction, so building never provides a usable barracks. */
  lemma BuildingNeverEnablesBarracks(bs: seq<WarBuilding>, t: WarBuildingType, now: int)
    ensures HasBarracks(bs + [NewWarBuilding(t, now)]) == HasBarracks(bs)
  {
    var b := NewWarBuilding(t, now);
    if HasBarracks(bs + [b]) {
      var i :| 0 <= i < |bs + [b]| && (bs + [b])[i].kind == Barracks && !(bs + [b])[i].isConstructing;
      assert i < |bs| && bs[i] == (bs + [b])[i];
    }
    if HasBarracks(bs) {
      var i :| 0 <= i < |bs| && bs[i].kind == Barracks && !bs[i].isConstructing;
      assert (bs + [b])[i] == bs[i];
    }
  }

  /** From the starting town hall, any run of panel builds leaves no finished
      barracks and no producing building. */
  lemma {:induction false} PanelBuildsNeverProduce(builds: seq<WarBuildingType>, now: int)
    ensures var bs := [PlayerTownHall] + Placed(builds, now);
      && !HasBarracks(bs)
      && ActiveLevels(bs, LumberMill) == 0 && ActiveLevels(bs, Farm) == 0 && ActiveLevels(bs, Mine) == 0
  {
    if |builds| > 0 {
      var rest := builds[..|builds| - 1];
      PanelBuildsNeverProduce(rest, now);
      var before := [PlayerTownHall] + Placed(rest, now);
      var b := NewWarBuilding(builds[|builds| - 1], now);
      assert [PlayerTownHall] + Placed(builds, now) == before + [b];
      BuildingNeverEnablesBarracks(before, builds[|builds| - 1], now);
      ConstructingAddsNothing(before, b, LumberMill);
      ConstructingAddsNothing(before, b, Farm);
      ConstructingAddsNothing(before, b, Mine);
    }
  }

  /** The buildings a run of panel builds adds, all at one clock reading. */
  function Placed(builds: seq<WarBuildingType>, now: int): seq<WarBuilding>
  {
    if |builds| == 0 then []
    else Placed(builds[..|builds| - 1], now) + [NewWarBuilding(builds[|builds| - 1], now)]
  }

  // ---------------------------------------------------------------- training

  /** Villagers train anywhere; military units need a finished barracks. */
  predicate CanTrain(kind: UnitType, hasBarracks: bool): (ok: bool)
    ensures kind == Villager ==> ok
    ensures kind != Villager ==> (ok <==> hasBarracks)
  {
    kind == Villager || hasBarracks
  }

  /** A unit's button is disabled when it is unaffordable, untrainable or the
      population is at the cap. */
  predicate TrainDisabled(g: Resources, kind: UnitType, population: int, cap: int, bs: seq<WarBuilding>): (d: bool)
    ensures population >= cap ==> d
    ensures !d ==> TrySpendAll(g, Whole(UnitCosts(kind).price)).Some?
    ensures !d && kind != Villager ==> HasBarracks(bs)
    ensures population < cap && TrySpendAll(g, Whole(UnitCosts(kind).price)).Some? && (kind == Villager || HasBarracks(bs)) ==> !d
  {
    !CanAfford(g, UnitCosts(kind).price) || !CanTrain(kind, HasBarracks(bs)) || population >= cap
  }

  /** Without a finished barracks every military button is disabled, whatever
      the stock and the population. */
  lemma MilitaryNeedsBarracks(res: Resources, kind: UnitType, population: int, cap: int, bs: seq<WarBuilding>)
    requires kind != Villager
    requires forall i :: 0 <= i < |bs| ==> bs[i].kind != Barracks || bs[i].isConstructing
    ensures TrainDisabled(res, kind, population, cap, bs)
  {
  }

  datatype TrainOutcome = PopulationCapReached | Unaffordable | Queued

  /** `handleTrain` as written: refuse when the finished units fill the cap,
      then spend the unit's price and, on success, queue it. Units already in
      the queue are not counted. */
  method HandleTrain(g: WarGame, kind: UnitType, now: int) returns (outcome: TrainOutcome)
    modifies g`resources, g`trainingQueue
    ensures outcome == PopulationCapReached <==> old(g.currentPopulation) >= old(g.populationCap)
    ensures outcome == Queued <==>
      old(g.currentPopulation) < old(g.populationCap) && CanAfford(old(g.resources), UnitCosts(kind).price)
    ensures outcome == Queued ==>
      && g.trainingQueue == old(g.trainingQueue) + [Entry(kind, now + UnitCosts(kind).time * 1000)]
      && Plus(g.resources, UnitCosts(kind).price) == old(g.resources)
    ensures outcome != Queued ==> g.trainingQueue == old(g.trainingQueue) && g.resources == old(g.resources)
  {
    if g.currentPopulation >= g.populationCap {
      return PopulationCapReached;
    }
    var cost := UnitCosts(kind);
    var ok := g.SpendResources(Whole(cost.price));
    if ok {
      g.TrainUnit(kind, cost.time * 1000, now);
      outcome := Queued;
    } else {
      outcome := Unaffordable;
    }
  }

  /** The corrected handler: queued units count against the cap, so finished
      plus queued units never exceed it through training. */
  method HandleTrainCounted(g: WarGame, kind: UnitType, now: int) returns (outcome: TrainOutcome)
    modifies g`resources, g`trainingQueue
    ensures outcome == PopulationCapReached <==>
      old(g.currentPopulation) + |old(g.trainingQueue)| >= old(g.populationCap)
    ensures outcome == Queued <==>
      old(g.currentPopulation) + |old(g.trainingQueue)| < old(g.populationCap)
      && CanAfford(old(g.resources), UnitCosts(kind).price)
    ensures outcome == Queued ==>
      && g.trainingQueue == old(g.trainingQueue) + [Entry(kind, now + UnitCosts(kind).time * 1000)]
      && Plus(g.resources, UnitCosts(kind).price) == old(g.resources)
    ensures outcome != Queued ==> g.trainingQueue == old(g.trainingQueue) && g.resources == old(g.resources)
    ensures old(g.currentPopulation) + |old(g.trainingQueue)| <= old(g.populationCap) ==>
      g.currentPopulation + |g.trainingQueue| <= g.populationCap
  {
    if g.currentPopulation + |g.trainingQueue| >= g.populationCap {
      return PopulationCapReached;
    }
    var cost := UnitCosts(kind);
    var ok := g.SpendResources(Whole(cost.price));
    if ok {
      g.TrainUnit(kind, cost.time * 1000, now);
      outcome := Queued;
    } else {
      outcome := Unaffordable;
    }
  }

  /** Villager orders at one instant through the handler as written, on a
      game with no units, an empty queue, a cap of five and the easy stock:
      every order is queued. */
  method OrderAsWritten(g: WarGame, orders: nat)
    requires orders <= 10
    requires g.Valid() && g.currentPopulation == 0 && g.populationCap == BaseCap && g.trainingQueue == []
    requires g.resources == Resources(500, 500, 300, 200)
    modifies g`resources, g`trainingQueue
    ensures g.Valid() && |g.trainingQueue| == orders
    ensures forall i :: 0 <= i < |g.trainingQueue| ==> g.trainingQueue[i].endTime == 25000
  {
    var order := 0;
    while order < orders
      invariant 0 <= order <= orders
      invariant g.resources == Resources(500, 500 - 50 * order, 300, 200)
      invariant |g.trainingQueue| == order
      invariant forall i :: 0 <= i < order ==> g.trainingQueue[i].endTime == 25000
    {
      var outcome := HandleTrain(g, Villager, 0);
      assert outcome == Queued;
      order := order + 1;
    }
  }

  /** The same orders through the corrected handler: only five are queued. */
  method OrderCounted(g: WarGame, orders: nat)
    requires g.Valid() && g.currentPopulation == 0 && g.populationCap == BaseCap && g.trainingQueue == []
    requires g.resources == Resources(500, 500, 300, 200)
    modifies g`resources, g`trainingQueue
    ensures g.Valid() && |g.trainingQueue| == (if orders < 5 then orders else 5)
    ensures forall i :: 0 <= i < |g.trainingQueue| ==> g.trainingQueue[i].endTime == 25000
  {
    var order := 0;
    while order < orders
      invariant 0 <= order <= orders
      invariant |g.trainingQueue| == (if order < 5 then order else 5)
      invariant forall i :: 0 <= i < |g.trainingQueue| ==> g.trainingQueue[i].endTime == 25000
      invariant g.resources == Resources(500, 500 - 50 * |g.trainingQueue|, 300, 200)
    {
      var outcome := HandleTrainCounted(g, Villager, 0);
      assert outcome == (if order < 5 then Queued else PopulationCapReached);
      order := order + 1;
    }
  }

  /** A fresh easy game, six villagers ordered one after another at the same
      instant through the handler as written, then promoted: six finished
      units under a cap of five. */
  method OvershootAsWritten() returns (population: int, cap: int)
    ensures population == 6 && cap == 5
  {
    var g := new WarGame(0);
    g.SetDifficulty(Easy);
    g.StartGame(0);
    OrderAsWritten(g, 6);
    AllDue(g.trainingQueue, 25000);
    g.CompleteUnitTraining(25000);
    population, cap := g.currentPopulation, g.populationCap;
  }

  /** The same orders through the corrected handler: the sixth is refused and
      the promoted units fill the cap exactly. */
  method OvershootCounted() returns (population: int, cap: int)
    ensures population == 5 && cap == 5
  {
    var g := new WarGame(0);
    g.SetDifficulty(Easy);
    g.StartGame(0);
    OrderCounted(g, 6);
    AllDue(g.trainingQueue, 25000);
    g.CompleteUnitTraining(25000);
    population, cap := g.currentPopulation, g.populationCap;
  }
}
