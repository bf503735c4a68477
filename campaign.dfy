/** Battle resolution of the village game's campaign
    (src/components/game/CampaignMode.tsx): aggregate troop power against
    aggregate enemy-building power, a win test on their ratio, a star rating,
    and the store actions a win triggers. */
module Campaign {
  import opened VillageRules
  import opened VillageStore

  datatype BattleResult = BattleResult(won: bool, stars: nat)

  /** Combat power of one troop: hit points plus damage. */
  function TroopPower(t: TroopType): nat
  {
    Stats(t).hp + Stats(t).damage
  }

  /** Power of a roster: the sum of troop power times count over its lines. */
  function RosterPower(r: seq<Troop>): (p: int)
    ensures (forall i :: 0 <= i < |r| ==> r[i].count > 0) ==> (p > 0 <==> |r| > 0)
  {
    if |r| == 0 then 0
    else RosterPower(r[..|r| - 1]) + TroopPower(r[|r| - 1].kind) * r[|r| - 1].count
  }

  /** The player-power loop: accumulate line by line. */
  method PlayerPower(troops: seq<Troop>) returns (power: int)
    ensures power == RosterPower(troops)
  {
    power := 0;
    var i := 0;
    while i < |troops|
      invariant 0 <= i <= |troops|
      invariant power == RosterPower(troops[..i])
    {
      assert troops[..i + 1][..i] == troops[..i];
      power := power + TroopPower(troops[i].kind) * troops[i].count;
      i := i + 1;
    }
    assert troops[..i] == troops;
  }

  /** On a roster with one line per kind the power is 53 per barbarian, 27 per
      archer and 311 per giant. */
  lemma {:induction false} PowerByKind(r: seq<Troop>)
    requires RosterValid(r)
    ensures RosterPower(r) ==
      53 * Available(r, Barbarian) + 27 * Available(r, Archer) + 311 * Available(r, Giant)
  {
    if |r| > 0 {
      var s, x := r[..|r| - 1], r[|r| - 1];
      assert r == s + [x];
      assert RosterValid(s);
      PowerByKind(s);
      AvailableAfterAppend(s, x, Barbarian);
      AvailableAfterAppend(s, x, Archer);
      AvailableAfterAppend(s, x, Giant);
    }
  }

  /** Enemy power: 50 per level of every enemy building, summed left to right. */
  function EnemyPower(bs: seq<EnemyBuilding>): (p: nat)
    ensures (forall i :: 0 <= i < |bs| ==> bs[i].level >= 1) ==> p >= 50 * |bs|
  {
    if |bs| == 0 then 0 else EnemyPower(bs[..|bs| - 1]) + bs[|bs| - 1].level * 50
  }

  /** Ceiling of a / b for a positive divisor. */
  function CeilDiv(a: int, b: int): (q: int)
    requires b > 0
    ensures (q - 1) * b < a <= q * b
  {
    (a + b - 1) / b
  }

  /** The outcome: a win when the power ratio exceeds 1.2, and then
      min(3, ceil(ratio)) stars. With no enemy power the ratio is a JavaScript
      division by zero: Infinity for a positive player power (a three-star win),
      NaN or -Infinity otherwise (a loss). */
  function Resolve(playerPower: int, enemyPower: nat): (r: BattleResult)
    ensures enemyPower > 0 ==> (r.won <==> 5 * playerPower > 6 * enemyPower)
    ensures enemyPower == 0 ==> (r.won <==> playerPower > 0)
    ensures r.won ==> 2 <= r.stars <= 3
    ensures !r.won ==> r.stars == 0
    ensures r.won && enemyPower > 0 ==> (r.stars == 3 <==> playerPower > 2 * enemyPower)
    ensures r.won && enemyPower == 0 ==> r.stars == 3
  {
    if enemyPower == 0 then
      if playerPower > 0 then BattleResult(true, 3) else BattleResult(false, 0)
    else if 5 * playerPower > 6 * enemyPower then
      var c := CeilDiv(playerPower, enemyPower);
      BattleResult(true, if c < 3 then c else 3)
    else
      BattleResult(false, 0)
  }

  /** Ten barbarians (530) against 400 enemy power: ratio 1.325, a two-star win. */
  lemma TenBarbariansExample()
    ensures RosterPower([Troop(Barbarian, 10)]) == 530
    ensures Resolve(530, 400) == BattleResult(true, 2)
  {
    assert [Troop(Barbarian, 10)][..0] == [];
  }

  /** The enemy power of the five initial missions. */
  lemma InitialMissionPowers()
    ensures |InitialMissions| == 5
    ensures EnemyPower(InitialMissions[0].enemyBuildings) == 100
    ensures EnemyPower(InitialMissions[1].enemyBuildings) == 250
    ensures EnemyPower(InitialMissions[2].enemyBuildings) == 400
    ensures EnemyPower(InitialMissions[3].enemyBuildings) == 700
    ensures EnemyPower(InitialMissions[4].enemyBuildings) == 950
  {
    var m := InitialMissions;
    EnemyPowerIsLevelTotal(m[0].enemyBuildings);
    EnemyPowerIsLevelTotal(m[1].enemyBuildings);
    EnemyPowerIsLevelTotal(m[2].enemyBuildings);
    EnemyPowerIsLevelTotal(m[3].enemyBuildings);
    EnemyPowerIsLevelTotal(m[4].enemyBuildings);
  }

  /** The total of the enemy buildings' levels, summed from the front. */
  function LevelTotal(bs: seq<EnemyBuilding>): nat
  {
    if |bs| == 0 then 0 else bs[0].level + LevelTotal(bs[1..])
  }

  lemma {:induction false} LevelTotalAppend(bs: seq<EnemyBuilding>, b: EnemyBuilding)
    ensures LevelTotal(bs + [b]) == LevelTotal(bs) + b.level
  {
    if |bs| > 0 {
      assert (bs + [b])[1..] == bs[1..] + [b];
      LevelTotalAppend(bs[1..], b);
    }
  }

  /** The enemy power is 50 times the total of the levels, for any list. */
  lemma {:induction false} EnemyPowerIsLevelTotal(bs: seq<EnemyBuilding>)
    ensures EnemyPower(bs) == 50 * LevelTotal(bs)
  {
    if |bs| > 0 {
      var n := |bs|;
      EnemyPowerIsLevelTotal(bs[..n - 1]);
      LevelTotalAppend(bs[..n - 1], bs[n - 1]);
      assert bs[..n - 1] + [bs[n - 1]] == bs;
    }
  }

  /** The Attack button is enabled exactly on a mission not yet completed. */
  predicate AttackEnabled(m: Mission): (ok: bool)
    ensures ok <==> !m.completed
  {
    !m.completed
  }

  /** The Start Battle button is disabled exactly with an empty roster; on a
      store roster that is exactly when the roster has no power. */
  predicate BattleEnabled(troops: seq<Troop>): (ok: bool)
    ensures troops == [] ==> !ok
    ensures !ok ==> troops == [] && RosterPower(troops) == 0
    ensures RosterValid(troops) ==> (ok <==> RosterPower(troops) > 0)
  {
    |troops| > 0
  }

  /** Starting a battle with an empty roster could only lose, so the
      disabled button hides nothing winnable. */
  lemma EmptyRosterCannotWin(troops: seq<Troop>, enemyPower: nat)
    requires !BattleEnabled(troops)
    ensures !Resolve(RosterPower(troops), enemyPower).won
  {
  }

  /** After a mission is completed its Attack button stays disabled. */
  lemma CompletedMissionIsLocked(ms: seq<Mission>, id: int)
    ensures forall i :: 0 <= i < |ms| && ms[i].id == id ==> !AttackEnabled(MarkCompleted(ms, id)[i])
  {
  }

  /** `simulateBattle`: on a win, complete the mission, credit both rewards once
      and deploy the whole roster; on a loss no store action runs. */
  method SimulateBattle(v: Village, mission: Mission) returns (result: BattleResult)
    requires v.Valid()
    modifies v`missions, v`gold, v`elixir, v`troops
    ensures v.Valid()
    ensures result == Resolve(RosterPower(old(v.troops)), EnemyPower(mission.enemyBuildings))
    ensures result.won ==>
      && v.missions == MarkCompleted(old(v.missions), mission.id)
      && v.gold == old(v.gold) + mission.goldReward
      && v.elixir == old(v.elixir) + mission.elixirReward
      && v.troops == []
    ensures !result.won ==>
      && v.missions == old(v.missions)
      && v.gold == old(v.gold)
      && v.elixir == old(v.elixir)
      && v.troops == old(v.troops)
  {
    var troops := v.troops;
    var playerPower := PlayerPower(troops);
    var enemyPower := EnemyPower(mission.enemyBuildings);
    result := Resolve(playerPower, enemyPower);
    if result.won {
      v.CompleteMission(mission.id);
      v.AddGold(mission.goldReward);
      v.AddElixir(mission.elixirReward);
      v.DeployTroops(troops);
      DeployWholeRoster(troops);
    }
  }
}
