/** The village game's store (src/lib/gameStore.ts): gold and elixir, buildings
    with their upgrade state, an aggregate troop roster, a troop-training queue
    and the five campaign missions. The clock is a `now` parameter. */
module VillageStore {
  import opened Optional
  import opened VillageRules
  import opened TrainingQueue
  import Ledger

  datatype Building = Building(
    id: string,
    kind: BuildingType,
    level: nat,
    x: int,
    y: int,
    isUpgrading: bool,
    upgradeEndTime: Option<int>)

  /** One roster line: how many troops of a kind are ready. */
  datatype Troop = Troop(kind: TroopType, count: int)

  datatype EnemyBuilding = EnemyBuilding(kind: BuildingType, level: nat)

  datatype Mission = Mission(
    id: int,
    name: string,
    difficulty: nat,
    goldReward: int,
    elixirReward: int,
    completed: bool,
    enemyBuildings: seq<EnemyBuilding>)

  /** Every upgrade lasts one minute, whatever UpgradeTimes says. */
  const UpgradeDurationMs: int := 60000

  const InitialMissions: seq<Mission> := [
    Mission(1, "Tutorial Village", 1, 100, 100, false,
      [EnemyBuilding(TownHall, 1), EnemyBuilding(GoldMine, 1)]),
    Mission(2, "Goblin Outpost", 2, 200, 200, false,
      [EnemyBuilding(TownHall, 2), EnemyBuilding(GoldMine, 2), EnemyBuilding(ElixirCollector, 1)]),
    Mission(3, "Barbarian Camp", 3, 300, 300, false,
      [EnemyBuilding(TownHall, 3), EnemyBuilding(GoldMine, 2), EnemyBuilding(ElixirCollector, 2),
       EnemyBuilding(Barracks, 1)]),
    Mission(4, "Giant Stronghold", 4, 500, 500, false,
      [EnemyBuilding(TownHall, 4), EnemyBuilding(GoldMine, 3), EnemyBuilding(ElixirCollector, 3),
       EnemyBuilding(Barracks, 2), EnemyBuilding(ArmyCamp, 2)]),
    Mission(5, "Dragon Fortress", 5, 1000, 1000, false,
      [EnemyBuilding(TownHall, 5), EnemyBuilding(GoldMine, 4), EnemyBuilding(ElixirCollector, 4),
       EnemyBuilding(Barracks, 3), EnemyBuilding(ArmyCamp, 3)])
  ]

  const InitialBuildings: seq<Building> := [Building("th-1", TownHall, 1, 5, 5, false, None)]

  // ---------------------------------------------------------------- roster

  /** `findIndex` on the roster: the first line of kind t, or -1. */
  function Find(r: seq<Troop>, t: TroopType): (k: int)
    ensures -1 <= k < |r|
    ensures k == -1 <==> forall i :: 0 <= i < |r| ==> r[i].kind != t
    ensures k >= 0 ==> r[k].kind == t && forall i :: 0 <= i < k ==> r[i].kind != t
  {
    if |r| == 0 then -1
    else if r[0].kind == t then 0
    else
      var k := Find(r[1..], t);
      if k == -1 then -1 else k + 1
  }

  /** Find is pinned down by its contract: any index meeting it is the answer. */
  lemma {:induction false} FindIs(r: seq<Troop>, t: TroopType, k: int)
    requires -1 <= k < |r|
    requires k == -1 ==> forall i :: 0 <= i < |r| ==> r[i].kind != t
    requires k >= 0 ==> r[k].kind == t && forall i :: 0 <= i < k ==> r[i].kind != t
    ensures Find(r, t) == k
  {
    if |r| > 0 && r[0].kind != t {
      FindIs(r[1..], t, if k == -1 then -1 else k - 1);
    }
  }

  /** How many troops of kind t are ready: the first matching line's count,
      or 0 when the kind is absent. */
  function Available(r: seq<Troop>, t: TroopType): (n: int)
    ensures (forall i :: 0 <= i < |r| ==> r[i].kind != t) ==> n == 0
    ensures (forall i :: 0 <= i < |r| ==> r[i].count > 0) ==> n >= 0
  {
    var k := Find(r, t);
    if k == -1 then 0 else r[k].count
  }

  /** On a roster with one line per kind, a kind's availability is its line's
      count. */
  lemma AvailableOfLine(r: seq<Troop>, t: TroopType, i: int)
    requires RosterValid(r) && 0 <= i < |r| && r[i].kind == t
    ensures Available(r, t) == r[i].count
  {
    FindIs(r, t, i);
  }

  /** At most one line per kind, and every line holds at least one troop. */
  predicate RosterValid(r: seq<Troop>)
  {
    && (forall i, j :: 0 <= i < j < |r| ==> r[i].kind != r[j].kind)
    && (forall i :: 0 <= i < |r| ==> r[i].count > 0)
  }

  /** Add n trained troops of kind t: bump the existing line, or append one. */
  function Credit(r: seq<Troop>, t: TroopType, n: int): seq<Troop>
  {
    if n <= 0 then r
    else
      var k := Find(r, t);
      if k == -1 then r + [Troop(t, n)] else r[k := Troop(r[k].kind, r[k].count + n)]
  }

  lemma CreditEffect(r: seq<Troop>, t: TroopType, n: int, u: TroopType)
    requires RosterValid(r) && n >= 0
    ensures RosterValid(Credit(r, t, n))
    ensures Available(Credit(r, t, n), u) == Available(r, u) + (if u == t then n else 0)
  {
    if n > 0 {
      if Find(r, t) == -1 {
        CreditAppends(r, t, n, u);
      } else {
        CreditBumps(r, t, n, u);
      }
    }
  }

  lemma CreditAppends(r: seq<Troop>, t: TroopType, n: int, u: TroopType)
    requires RosterValid(r) && n > 0 && Find(r, t) == -1
    ensures RosterValid(Credit(r, t, n))
    ensures Available(Credit(r, t, n), u) == Available(r, u) + (if u == t then n else 0)
  {
    assert Credit(r, t, n) == r + [Troop(t, n)];
    AppendKeepsValid(r, Troop(t, n));
    AvailableAfterAppend(r, Troop(t, n), u);
  }

  /** A new line of an absent kind with a positive count keeps the roster valid. */
  lemma AppendKeepsValid(r: seq<Troop>, x: Troop)
    requires RosterValid(r) && x.count > 0
    requires forall i :: 0 <= i < |r| ==> r[i].kind != x.kind
    ensures RosterValid(r + [x])
  {
    var r' := r + [x];
    assert forall i :: 0 <= i < |r| ==> r'[i] == r[i];
  }

  /** Appending a line of a kind not yet present adds exactly that line. */
  lemma AvailableAfterAppend(r: seq<Troop>, x: Troop, u: TroopType)
    requires forall i :: 0 <= i < |r| ==> r[i].kind != x.kind
    ensures Available(r + [x], u) == Available(r, u) + (if u == x.kind then x.count else 0)
  {
    var r' := r + [x];
    var ku := Find(r, u);
    FindIs(r', u, if u == x.kind then |r| else ku);
  }

  lemma CreditBumps(r: seq<Troop>, t: TroopType, n: int, u: TroopType)
    requires RosterValid(r) && n > 0 && Find(r, t) != -1
    ensures RosterValid(Credit(r, t, n))
    ensures Available(Credit(r, t, n), u) == Available(r, u) + (if u == t then n else 0)
  {
    var k := Find(r, t);
    var c := r[k].count + n;
    assert c > 0;
    var r' := r[k := Troop(r[k].kind, c)];
    assert Credit(r, t, n) == r';
    assert Available(r, t) == r[k].count;
    LowerEffect(r, k, c, u);
  }

  /** Rosters with the same kind at every position find every kind at the
      same position. */
  lemma FindSameKinds(r: seq<Troop>, r': seq<Troop>, u: TroopType)
    requires |r| == |r'|
    requires forall i :: 0 <= i < |r| ==> r'[i].kind == r[i].kind
    ensures Find(r', u) == Find(r, u)
  {
    FindIs(r', u, Find(r, u));
  }

  /** Credit every completed entry, kind by kind (barbarians, archers, giants). */
  function CreditAll(r: seq<Troop>, completed: seq<Entry<TroopType>>): seq<Troop>
  {
    var r1 := Credit(r, Barbarian, CountKind(completed, Barbarian));
    var r2 := Credit(r1, Archer, CountKind(completed, Archer));
    Credit(r2, Giant, CountKind(completed, Giant))
  }

  /** Each kind's count rises by its number of completed entries, and the roster
      keeps one line per kind. */
  lemma CreditAllEffect(r: seq<Troop>, completed: seq<Entry<TroopType>>, u: TroopType)
    requires RosterValid(r)
    ensures RosterValid(CreditAll(r, completed))
    ensures Available(CreditAll(r, completed), u) == Available(r, u) + CountKind(completed, u)
  {
    var r1 := Credit(r, Barbarian, CountKind(completed, Barbarian));
    var r2 := Credit(r1, Archer, CountKind(completed, Archer));
    CreditEffect(r, Barbarian, CountKind(completed, Barbarian), u);
    CreditEffect(r1, Archer, CountKind(completed, Archer), u);
    CreditEffect(r2, Giant, CountKind(completed, Giant), u);
  }

  /** Deploy one roster line: subtract its count from the matching kind and drop
      the line once it reaches zero or below; an absent kind is ignored. */
  function DeployOne(r: seq<Troop>, d: Troop): seq<Troop>
  {
    var k := Find(r, d.kind);
    if k == -1 then r
    else
      var c := r[k].count - d.count;
      if c <= 0 then r[..k] + r[k + 1..] else r[k := Troop(r[k].kind, c)]
  }

  function Deploy(r: seq<Troop>, ds: seq<Troop>): seq<Troop>
    decreases |ds|
  {
    if |ds| == 0 then r else Deploy(DeployOne(r, ds[0]), ds[1..])
  }

  lemma DeployOneEffect(r: seq<Troop>, d: Troop, u: TroopType)
    requires RosterValid(r)
    ensures RosterValid(DeployOne(r, d))
    ensures Available(DeployOne(r, d), u) ==
      if u != d.kind || Available(r, u) == 0 then Available(r, u)
      else if Available(r, u) - d.count > 0 then Available(r, u) - d.count
      else 0
  {
    var k := Find(r, d.kind);
    if k != -1 {
      assert Available(r, d.kind) == r[k].count > 0;
      var c := r[k].count - d.count;
      if c <= 0 {
        assert DeployOne(r, d) == r[..k] + r[k + 1..];
        SpliceEffect(r, k, u);
      } else {
        assert DeployOne(r, d) == r[k := Troop(r[k].kind, c)];
        LowerEffect(r, k, c, u);
      }
    }
  }

  /** Dropping the line at k removes that kind and keeps the others. */
  lemma SpliceEffect(r: seq<Troop>, k: int, u: TroopType)
    requires RosterValid(r) && 0 <= k < |r|
    ensures RosterValid(r[..k] + r[k + 1..])
    ensures Available(r[..k] + r[k + 1..], u) == if u == r[k].kind then 0 else Available(r, u)
  {
    SpliceKeepsValid(r, k);
    SpliceFind(r, k, u);
  }

  lemma SpliceKeepsValid(r: seq<Troop>, k: int)
    requires RosterValid(r) && 0 <= k < |r|
    ensures RosterValid(r[..k] + r[k + 1..])
  {
    var r' := r[..k] + r[k + 1..];
    forall i | 0 <= i < |r'| ensures r'[i].count > 0 {
      SpliceAt(r, k, i);
    }
    forall i, j | 0 <= i < j < |r'| ensures r'[i].kind != r'[j].kind {
      SpliceAt(r, k, i);
      SpliceAt(r, k, j);
    }
  }

  lemma SpliceFind(r: seq<Troop>, k: int, u: TroopType)
    requires RosterValid(r) && 0 <= k < |r|
    ensures Available(r[..k] + r[k + 1..], u) == if u == r[k].kind then 0 else Available(r, u)
  {
    var r' := r[..k] + r[k + 1..];
    forall i | 0 <= i < |r'| ensures r'[i] == r[if i < k then i else i + 1] {
      SpliceAt(r, k, i);
    }
    var ku := Find(r, u);
    if u == r[k].kind || ku == -1 {
      FindIs(r', u, -1);
    } else if ku < k {
      FindIs(r', u, ku);
    } else {
      FindIs(r', u, ku - 1);
    }
  }

  /** Position i of the spliced roster holds line i, or line i + 1 from k on. */
  lemma SpliceAt(r: seq<Troop>, k: int, i: int)
    requires 0 <= k < |r| && 0 <= i < |r| - 1
    ensures (r[..k] + r[k + 1..])[i] == r[if i < k then i else i + 1]
  {
    if i >= k {
      assert (r[..k] + r[k + 1..])[i] == r[k + 1..][i - k];
    }
  }

  /** Lowering the line at k to a positive count c changes only that kind. */
  lemma LowerEffect(r: seq<Troop>, k: int, c: int, u: TroopType)
    requires RosterValid(r) && 0 <= k < |r| && c > 0
    ensures RosterValid(r[k := Troop(r[k].kind, c)])
    ensures Available(r[k := Troop(r[k].kind, c)], u) == if u == r[k].kind then c else Available(r, u)
  {
    FindSameKinds(r, r[k := Troop(r[k].kind, c)], u);
  }

  /** Deploying from position i is deploying line i, then the rest. */
  lemma DeployStep(r: seq<Troop>, ds: seq<Troop>, i: int)
    requires 0 <= i < |ds|
    ensures Deploy(r, ds[i..]) == Deploy(DeployOne(r, ds[i]), ds[i + 1..])
  {
    assert ds[i..][0] == ds[i] && ds[i..][1..] == ds[i + 1..];
  }

  lemma {:induction false} DeployKeepsValid(r: seq<Troop>, ds: seq<Troop>)
    requires RosterValid(r)
    ensures RosterValid(Deploy(r, ds))
    decreases |ds|
  {
    if |ds| > 0 {
      DeployOneEffect(r, ds[0], ds[0].kind);
      DeployKeepsValid(DeployOne(r, ds[0]), ds[1..]);
    }
  }

  /** Deploying the whole roster leaves it empty. */
  lemma {:induction false} DeployWholeRoster(r: seq<Troop>)
    requires RosterValid(r)
    ensures Deploy(r, r) == []
  {
    if |r| > 0 {
      assert Find(r, r[0].kind) == 0;
      assert DeployOne(r, r[0]) == r[1..];
      DeployWholeRoster(r[1..]);
    }
  }

  // ---------------------------------------------------------------- buildings

  /** One building's view of `upgradeBuilding`. */
  function StartOne(b: Building, id: string, now: int): Building
  {
    if b.id == id then b.(isUpgrading := true, upgradeEndTime := Some(now + UpgradeDurationMs)) else b
  }

  /** `upgradeBuilding`: the buildings with that id start a one-minute upgrade;
      their level and everything else stay as they were. */
  function StartUpgrade(bs: seq<Building>, id: string, now: int): (r: seq<Building>)
    ensures |r| == |bs|
    ensures forall i :: 0 <= i < |bs| ==> r[i] == StartOne(bs[i], id, now)
  {
    if |bs| == 0 then [] else [StartOne(bs[0], id, now)] + StartUpgrade(bs[1..], id, now)
  }

  /** One building's view of `completeBuildingUpgrade`. */
  function FinishOne(b: Building, id: string): Building
  {
    if b.id == id then b.(level := b.level + 1, isUpgrading := false, upgradeEndTime := None) else b
  }

  /** `completeBuildingUpgrade`: the buildings with that id gain one level and
      leave the upgrading state; the others are unchanged. */
  function FinishUpgrade(bs: seq<Building>, id: string): (r: seq<Building>)
    ensures |r| == |bs|
    ensures forall i :: 0 <= i < |bs| ==> r[i] == FinishOne(bs[i], id)
  {
    if |bs| == 0 then [] else [FinishOne(bs[0], id)] + FinishUpgrade(bs[1..], id)
  }

  /** Level of the first town hall with that id, if any. */
  function TownHallLevelOf(bs: seq<Building>, id: string): Option<nat>
  {
    if |bs| == 0 then None
    else if bs[0].kind == TownHall && bs[0].id == id then Some(bs[0].level)
    else TownHallLevelOf(bs[1..], id)
  }

  /** The lookup finds nothing exactly when no town hall carries that id. */
  lemma {:induction false} TownHallLevelOfNone(bs: seq<Building>, id: string)
    ensures TownHallLevelOf(bs, id).None? <==>
      forall i :: 0 <= i < |bs| ==> !(bs[i].kind == TownHall && bs[i].id == id)
  {
    if |bs| > 0 {
      TownHallLevelOfNone(bs[1..], id);
      assert forall i :: 1 <= i < |bs| ==> bs[i] == bs[1..][i - 1];
    }
  }

  /** After completing an upgrade, the recorded town-hall level is the upgraded
      town hall's new level, and nothing when the building is no town hall. */
  lemma {:induction false} TownHallSync(bs: seq<Building>, id: string)
    ensures TownHallLevelOf(FinishUpgrade(bs, id), id) ==
      match TownHallLevelOf(bs, id)
      case None => None
      case Some(l) => Some(l + 1)
  {
    if |bs| > 0 {
      TownHallSync(bs[1..], id);
      var rest := FinishUpgrade(bs[1..], id);
      var f := [FinishOne(bs[0], id)] + rest;
      assert FinishUpgrade(bs, id) == f;
      assert f[1..] == rest;
    }
  }

  /** Sum of the levels of the buildings of one kind. */
  function LevelSum(bs: seq<Building>, t: BuildingType): (n: nat)
    ensures (forall i :: 0 <= i < |bs| ==> bs[i].kind != t) ==> n == 0
  {
    if |bs| == 0 then 0
    else (if bs[0].kind == t then bs[0].level else 0) + LevelSum(bs[1..], t)
  }

  lemma {:induction false} LevelSumAppend(bs: seq<Building>, b: Building, t: BuildingType)
    ensures LevelSum(bs + [b], t) == LevelSum(bs, t) + (if b.kind == t then b.level else 0)
  {
    if |bs| > 0 {
      assert (bs + [b])[1..] == bs[1..] + [b];
      LevelSumAppend(bs[1..], b, t);
    } else {
      assert LevelSum([b], t) == (if b.kind == t then b.level else 0) + LevelSum([], t);
    }
  }

  /** The goldmine and elixir-collector level sums, accumulated in one pass over
      the buildings as the tick does. Upgrading buildings keep producing. */
  method ProducerLevels(bs: seq<Building>) returns (goldLevels: nat, elixirLevels: nat)
    ensures goldLevels == LevelSum(bs, GoldMine)
    ensures elixirLevels == LevelSum(bs, ElixirCollector)
  {
    goldLevels, elixirLevels := 0, 0;
    var i := 0;
    while i < |bs|
      invariant 0 <= i <= |bs|
      invariant goldLevels == LevelSum(bs[..i], GoldMine)
      invariant elixirLevels == LevelSum(bs[..i], ElixirCollector)
    {
      assert bs[..i + 1] == bs[..i] + [bs[i]];
      LevelSumAppend(bs[..i], bs[i], GoldMine);
      LevelSumAppend(bs[..i], bs[i], ElixirCollector);
      if bs[i].kind == GoldMine {
        goldLevels := goldLevels + bs[i].level;
      } else if bs[i].kind == ElixirCollector {
        elixirLevels := elixirLevels + bs[i].level;
      }
      i := i + 1;
    }
    assert bs[..i] == bs;
  }

  // ---------------------------------------------------------------- missions

  /** `completeMission`: set the flag on the missions with that id. */
  function MarkCompleted(ms: seq<Mission>, id: int): (r: seq<Mission>)
    ensures |r| == |ms|
    ensures forall i :: 0 <= i < |ms| ==>
      r[i] == (if ms[i].id == id then ms[i].(completed := true) else ms[i])
  {
    if |ms| == 0 then []
    else [if ms[0].id == id then ms[0].(completed := true) else ms[0]] + MarkCompleted(ms[1..], id)
  }

  /** Completing a mission is one-way and idempotent. */
  lemma MarkCompletedIdempotent(ms: seq<Mission>, id: int)
    ensures MarkCompleted(MarkCompleted(ms, id), id) == MarkCompleted(ms, id)
    ensures forall i :: 0 <= i < |ms| && ms[i].completed ==> MarkCompleted(ms, id)[i].completed
  {
    var once := MarkCompleted(ms, id);
    var twice := MarkCompleted(once, id);
    assert |twice| == |once|;
    forall i | 0 <= i < |ms| ensures twice[i] == once[i] { }
  }

  // ---------------------------------------------------------------- the store

  class Village {
    var gold: int
    var elixir: int
    var townHallLevel: int
    var buildings: seq<Building>
    var troops: seq<Troop>
    var trainingQueue: seq<Entry<TroopType>>
    var missions: seq<Mission>
    var lastUpdate: int

    ghost predicate Valid()
      reads this
    {
      RosterValid(troops)
    }

    /** The initial state; `loadTime` is the clock reading when the store module
        was loaded. */
    constructor (loadTime: int)
      ensures Valid()
      ensures gold == 500 && elixir == 500 && townHallLevel == 1
      ensures buildings == InitialBuildings && troops == [] && trainingQueue == []
      ensures missions == InitialMissions && lastUpdate == loadTime
    {
      gold, elixir, townHallLevel := 500, 500, 1;
      buildings := InitialBuildings;
      troops, trainingQueue := [], [];
      missions := InitialMissions;
      lastUpdate := loadTime;
    }

    /** `resetGame` restores the initial state, load-time clock reading included. */
    method ResetGame(loadTime: int)
      modifies this
      ensures Valid()
      ensures gold == 500 && elixir == 500 && townHallLevel == 1
      ensures buildings == InitialBuildings && troops == [] && trainingQueue == []
      ensures missions == InitialMissions && lastUpdate == loadTime
    {
      gold, elixir, townHallLevel := 500, 500, 1;
      buildings := InitialBuildings;
      troops, trainingQueue := [], [];
      missions := InitialMissions;
      lastUpdate := loadTime;
    }

    method AddGold(amount: int)
      modifies this`gold
      ensures gold == old(gold) + amount
    {
      gold := gold + amount;
    }

    method AddElixir(amount: int)
      modifies this`elixir
      ensures elixir == old(elixir) + amount
    {
      elixir := elixir + amount;
    }

    method SpendGold(amount: int) returns (ok: bool)
      modifies this`gold
      ensures ok <==> old(gold) >= amount
      ensures gold == if ok then old(gold) - amount else old(gold)
    {
      var r := Ledger.TrySpend(gold, amount);
      ok := r.Some?;
      if ok {
        gold := r.value;
      }
    }

    method SpendElixir(amount: int) returns (ok: bool)
      modifies this`elixir
      ensures ok <==> old(elixir) >= amount
      ensures elixir == if ok then old(elixir) - amount else old(elixir)
    {
      var r := Ledger.TrySpend(elixir, amount);
      ok := r.Some?;
      if ok {
        elixir := r.value;
      }
    }

    method AddBuilding(b: Building)
      modifies this`buildings
      ensures buildings == old(buildings) + [b]
    {
      buildings := buildings + [b];
    }

    method UpgradeBuilding(id: string, now: int)
      modifies this`buildings
      ensures buildings == StartUpgrade(old(buildings), id, now)
    {
      buildings := StartUpgrade(buildings, id, now);
    }

    method CompleteBuildingUpgrade(id: string)
      modifies this`buildings, this`townHallLevel
      ensures buildings == FinishUpgrade(old(buildings), id)
      ensures townHallLevel ==
        match TownHallLevelOf(old(buildings), id)
        case None => old(townHallLevel)
        case Some(l) => l + 1
    {
      buildings := FinishUpgrade(buildings, id);
      var th := TownHallLevelOf(buildings, id);
      TownHallSync(old(buildings), id);
      if th.Some? {
        townHallLevel := th.value;
      }
    }

    method TrainTroop(kind: TroopType, duration: int, now: int)
      modifies this`trainingQueue
      ensures trainingQueue == old(trainingQueue) + [Entry(kind, now + duration)]
    {
      trainingQueue := trainingQueue + [Entry(kind, now + duration)];
    }

    /** Promote every queue entry that is due into the roster. */
    method CompleteTroopTraining(now: int)
      requires Valid()
      modifies this`troops, this`trainingQueue
      ensures Valid()
      ensures trainingQueue == Remaining(old(trainingQueue), now)
      ensures troops == CreditAll(old(troops), Completed(old(trainingQueue), now))
      ensures forall u :: (Available(troops, u) ==
        old(Available(troops, u)) + CountKind(Completed(old(trainingQueue), now), u))
    {
      var completed := Completed(trainingQueue, now);
      var remaining := Remaining(trainingQueue, now);
      var barbarians, archers, giants := Tally(completed);
      var updated := troops;
      updated := Credit(updated, Barbarian, barbarians);
      updated := Credit(updated, Archer, archers);
      updated := Credit(updated, Giant, giants);
      forall u ensures Available(updated, u) == Available(troops, u) + CountKind(completed, u) {
        CreditAllEffect(troops, completed, u);
      }
      CreditAllEffect(troops, completed, Barbarian);
      troops := updated;
      trainingQueue := remaining;
    }

    /** Deploy each given line in turn. */
    method DeployTroops(ds: seq<Troop>)
      requires Valid()
      modifies this`troops
      ensures Valid()
      ensures troops == Deploy(old(troops), ds)
    {
      var start := troops;
      var updated := start;
      var i := 0;
      while i < |ds|
        invariant 0 <= i <= |ds|
        invariant Deploy(updated, ds[i..]) == Deploy(start, ds)
      {
        DeployStep(updated, ds, i);
        ghost var before := updated;
        var k := Find(updated, ds[i].kind);
        if k != -1 {
          var c := updated[k].count - ds[i].count;
          if c <= 0 {
            updated := updated[..k] + updated[k + 1..];
          } else {
            updated := updated[k := Troop(updated[k].kind, c)];
          }
        }
        assert updated == DeployOne(before, ds[i]);
        i := i + 1;
      }
      DeployKeepsValid(start, ds);
      troops := updated;
    }

    method CompleteMission(id: int)
      modifies this`missions
      ensures missions == MarkCompleted(old(missions), id)
    {
      missions := MarkCompleted(missions, id);
    }

    /** The resource tick: half a unit per second per goldmine (elixir-collector)
        level, over the milliseconds since the last tick, floored. */
    method UpdateResources(now: int)
      modifies this`gold, this`elixir, this`lastUpdate
      ensures gold == old(gold) + Ledger.Gain(LevelSum(old(buildings), GoldMine), now - old(lastUpdate), 2000)
      ensures elixir == old(elixir) + Ledger.Gain(LevelSum(old(buildings), ElixirCollector), now - old(lastUpdate), 2000)
      ensures lastUpdate == now
      ensures now >= old(lastUpdate) ==> gold >= old(gold) && elixir >= old(elixir)
    {
      var goldLevels, elixirLevels := ProducerLevels(buildings);
      var elapsed := now - lastUpdate;
      gold := gold + Ledger.Gain(goldLevels, elapsed, 2000);
      elixir := elixir + Ledger.Gain(elixirLevels, elapsed, 2000);
      lastUpdate := now;
    }
  }

  /** Count the completed entries of each kind, as the tally record does. */
  method Tally(completed: seq<Entry<TroopType>>) returns (barbarians: nat, archers: nat, giants: nat)
    ensures barbarians == CountKind(completed, Barbarian)
    ensures archers == CountKind(completed, Archer)
    ensures giants == CountKind(completed, Giant)
  {
    barbarians, archers, giants := 0, 0, 0;
    var i := 0;
    while i < |completed|
      invariant 0 <= i <= |completed|
      invariant barbarians == CountKind(completed[..i], Barbarian)
      invariant archers == CountKind(completed[..i], Archer)
      invariant giants == CountKind(completed[..i], Giant)
    {
      assert completed[..i + 1] == completed[..i] + [completed[i]];
      CountKindAppend(completed[..i], completed[i], Barbarian);
      CountKindAppend(completed[..i], completed[i], Archer);
      CountKindAppend(completed[..i], completed[i], Giant);
      match completed[i].kind {
        case Barbarian => barbarians := barbarians + 1;
        case Archer => archers := archers + 1;
        case Giant => giants := giants + 1;
      }
      i := i + 1;
    }
    assert completed[..i] == completed;
  }
}
