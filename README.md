# Game-state logic of the village and war games, in Dafny

The repository holds two small browser games. Each keeps its state in a
client-side store, and some screens run admission and battle logic in their
handlers before they call the store.

- **Village game.** Its store holds gold and elixir, buildings that upgrade
  over time, an aggregate roster with one count per troop type, a
  troop-training queue and five campaign missions. The rule tables give
  upgrade costs and times, troop stats, town-hall requirements and
  per-level building limits. The build, upgrade and training screens charge
  one currency at a time and then call the store. The campaign screen
  compares troop power with enemy power and rates a win with stars.
- **War game.** Its store holds four resource counters, a population cap and
  a usage count, player and enemy buildings and units, and a unit-training
  queue. It also builds an enemy village that depends on the difficulty.
  The build panel and the unit-training panel spend resources and then
  call the store.

Each store is a Dafny `class` whose fields are the store's fields (lists
become `seq` fields). Each store action is a `method` with a `modifies`
frame and an `ensures` that gives the whole new state. Each new state is
stated through specification functions (`StartUpgrade`, `Deploy`,
`Completed`/`Remaining`, `TrySpendAll`, `LoweredCap`, ...). Lemmas prove what
those functions promise. Loops in the source (the power sum, the tallies, the
accrual sums, the enemy-village builder, the recruit builder) are methods
with loop invariants, proved against those functions.

Conventions:
- The clock is a `now` parameter. Elapsed time is in integer milliseconds.
- Accrual is exact: `floor(levels * ms / msPerUnit)` (`Ledger.Gain`), where
  Dafny's `/` on a positive divisor is the floor.
- The battle's win test `ratio > 1.2` is `5 * player > 6 * enemy`. The star
  rating uses a ceiling division.
- When the enemy power is 0, the model does what JavaScript does: a
  positive player power over 0 is `Infinity`, which is a three-star win.
  Otherwise the ratio is `NaN` or `-Infinity`, which is a loss.
- Ids built from names and timestamps are rendered as decimal text
  (`Decimal.NatText`/`IntText`). `NatText` is proved injective. That gives
  distinct recruit ids within one promotion and distinct enemy-village ids.

Modules: `Optional`, `Seqs` (an order-keeping filter), `Decimal`, `Ledger`
(debit and accrual), `TrainingQueue` (queue promotion, shared by both
games), `VillageRules`, `VillageStore`, `Campaign`, `Clock`,
`VillagePanels`, `WarRules`, `WarStore`, `WarPanels`.

## Model

| member | source | states |
|---|---|---|
| VillageRules.GetUpgradeCost | src/lib/gameConstants.ts:100-104 | no price exactly when the current level is 5 or more; otherwise the table entry at the current level, the price of the next level |
| VillageRules.GetUpgradeTime | src/lib/gameConstants.ts:107-111 | no time exactly when the current level is 5 or more; otherwise the table entry at the current level |
| VillageRules.UpgradeLookupsAgree | src/lib/gameConstants.ts:99-111 | the cost and time lookups run out at the same level |
| VillageRules.UpgradesAreNeverFree | src/lib/gameConstants.ts:4-40 | every upgrade from level 1 to 4 has a positive price |
| VillageRules.RequirementGate | src/lib/gameConstants.ts:114-116 | below the required town-hall level nothing may be built; army camps and barracks need level 2 |
| VillageRules.CanBuildBuilding | src/lib/gameConstants.ts:114-121 | allowed only from the required town-hall level up to level 5 and below the limit for that level; for a non-negative count, allowed exactly when the level is 1..5 and the count is under the limit, because the limit table is 0 below each requirement |
| VillageRules.TownHallCappedAtOne | src/lib/gameConstants.ts:91-97 | a second town hall is never allowed |
| VillageRules.MaxBuildingsMonotone | src/lib/gameConstants.ts:91-97 | a higher town hall never allows fewer buildings of any type |
| VillageRules.CostsUseOneCurrency | src/lib/gameConstants.ts:4-40 | every price has gold 0 or elixir 0 |
| Ledger.TrySpend | src/lib/gameStore.ts:181-197 | a debit succeeds exactly when the balance covers the amount, and then balance = rest + amount with a non-negative rest |
| Ledger.CreditThenSpend | src/lib/gameStore.ts:178-188 | spending what was just added restores a non-negative balance |
| Ledger.Gain | src/lib/gameStore.ts:289-290 | the gain is the floor of levels × elapsed ms / ms-per-unit; no time gives nothing; non-negative inputs give a non-negative gain |
| Ledger.GainMonotone | src/lib/gameStore.ts:273-297 | a longer wait never yields less |
| Ledger.TickSplit | src/lib/maxWarStore.ts:389-394 | two ticks yield at most one unit less than one merged tick over the same time, and never more |
| TrainingQueue.Completed | src/lib/gameStore.ts:231 | exactly the due entries (end time ≤ now) |
| TrainingQueue.Remaining | src/lib/gameStore.ts:232 | exactly the entries not yet due |
| TrainingQueue.Partition | src/lib/maxWarStore.ts:309-310 | the two parts together are the queue: sizes add up, and multisets add up |
| TrainingQueue.AllDue | src/lib/maxWarStore.ts:307-310 | when every entry is due, all are promoted and none remain |
| TrainingQueue.PromotionIdempotent | src/lib/gameStore.ts:229-232 | promoting again at the same instant promotes nothing and keeps the rest |
| TrainingQueue.CompletedAppend | src/lib/gameStore.ts:225-232 | an appended entry lands in exactly one part, after the older entries |
| TrainingQueue.CountKind | src/lib/gameStore.ts:235-236 | a per-kind count is at most the length, and 0 exactly when the kind is absent |
| TrainingQueue.CountKindAppend | src/lib/gameStore.ts:236 | appending an entry raises only its own kind's count, by one |
| VillageStore.Find | src/lib/gameStore.ts:256 | the index of the first line of that kind, or -1 exactly when there is none |
| VillageStore.FindIs | src/lib/gameStore.ts:241 | an index holding the kind with none before it is what the search returns |
| VillageStore.Available | src/components/game/TroopTraining.tsx:38 | 0 for an absent kind, and never negative when every line holds troops |
| VillageStore.AvailableOfLine | src/components/game/TroopTraining.tsx:38 | on a roster with one line per kind, a kind's count is the count on its line |
| VillageStore.CreditEffect | src/lib/gameStore.ts:239-247 | crediting n > 0 troops of a kind raises that kind's available count by n and no other; the roster keeps one line per kind |
| VillageStore.CreditAllEffect | src/lib/gameStore.ts:235-248 | after promotion, each kind's count rises by its number of completed entries, and the roster keeps one line per kind |
| VillageStore.DeployOneEffect | src/lib/gameStore.ts:255-262 | deploying d lowers d's kind by d.count and drops the line when it reaches 0 or less; an absent kind is ignored; other kinds are unchanged |
| VillageStore.DeployKeepsValid | src/lib/gameStore.ts:253-265 | deployment keeps one line per kind with positive counts |
| VillageStore.DeployWholeRoster | src/components/game/CampaignMode.tsx:45-46 | deploying the whole roster leaves it empty |
| VillageStore.StartUpgrade | src/lib/gameStore.ts:203-209 | only the buildings with that id start upgrading, ending at now + 60000, with their level unchanged |
| VillageStore.FinishUpgrade | src/lib/gameStore.ts:211-216 | only the buildings with that id gain exactly one level and leave the upgrading state |
| VillageStore.TownHallLevelOfNone | src/lib/gameStore.ts:219-220 | none exactly when no town hall has that id |
| VillageStore.TownHallSync | src/lib/gameStore.ts:218-222 | the town-hall level read after completion is the old level + 1 exactly when the id names a town hall |
| VillageStore.LevelSum | src/lib/gameStore.ts:281-287 | the level sum over one type, which is 0 when the type is absent |
| VillageStore.LevelSumAppend | src/lib/gameStore.ts:281-287 | a new building adds its level to its own type's sum only |
| VillageStore.ProducerLevels | src/lib/gameStore.ts:278-287 | the accrual loop's gold-mine and elixir-collector level sums; buildings still upgrading are counted too |
| VillageStore.MarkCompleted | src/lib/gameStore.ts:267-271 | the missions with that id become completed; nothing else changes |
| VillageStore.MarkCompletedIdempotent | src/lib/gameStore.ts:267-271 | completing a mission twice equals completing it once |
| VillageStore.Village.constructor | src/lib/gameStore.ts:83-171 | 500 gold, 500 elixir, town-hall level 1, the single town hall, no troops, an empty queue, the five missions |
| VillageStore.Village.ResetGame | src/lib/gameStore.ts:299 | the initial state again, with the load-time clock reading |
| VillageStore.Village.AddGold | src/lib/gameStore.ts:178 | gold rises by the amount |
| VillageStore.Village.AddElixir | src/lib/gameStore.ts:179 | elixir rises by the amount |
| VillageStore.Village.SpendGold | src/lib/gameStore.ts:181-188 | success exactly when gold covers the amount; then gold falls by it, otherwise gold is unchanged |
| VillageStore.Village.SpendElixir | src/lib/gameStore.ts:190-197 | the same rule for elixir |
| VillageStore.Village.AddBuilding | src/lib/gameStore.ts:199-201 | the building is appended |
| VillageStore.Village.UpgradeBuilding | src/lib/gameStore.ts:203-209 | the buildings become StartUpgrade of the old ones |
| VillageStore.Village.CompleteBuildingUpgrade | src/lib/gameStore.ts:211-223 | the buildings become FinishUpgrade of the old ones; the town-hall level follows the upgraded town hall, or is unchanged |
| VillageStore.Village.TrainTroop | src/lib/gameStore.ts:225-227 | one entry ending at now + duration is appended |
| VillageStore.Village.CompleteTroopTraining | src/lib/gameStore.ts:229-251 | the queue keeps the entries not yet due; each kind's count rises by its completed entries; one line per kind is kept |
| VillageStore.Village.DeployTroops | src/lib/gameStore.ts:253-265 | the roster becomes Deploy of the old roster, one deployed line after another, and stays valid |
| VillageStore.Village.CompleteMission | src/lib/gameStore.ts:267-271 | the missions become MarkCompleted of the old ones |
| VillageStore.Village.UpdateResources | src/lib/gameStore.ts:273-297 | gold and elixir each gain floor(levels × elapsed ms / 2000); the gains are non-negative when now ≥ lastUpdate; lastUpdate := now |
| VillageStore.Tally | src/lib/gameStore.ts:235-236 | the per-kind counts of the completed entries |
| Campaign.PlayerPower | src/components/game/CampaignMode.tsx:26-30 | the accumulated power is the roster's power, the sum of (hp + damage) × count |
| Campaign.RosterPower | src/components/game/CampaignMode.tsx:26-30 | when every line holds troops, the power is positive exactly when the roster is non-empty |
| Campaign.PowerByKind | src/lib/gameConstants.ts:75-79 | on a valid roster the power is 53 per barbarian, 27 per archer and 311 per giant |
| VillageStore.AvailableAfterAppend | src/components/game/CampaignMode.tsx:27-30 | a new line of an absent kind adds exactly its count to that kind |
| Campaign.EnemyPower | src/components/game/CampaignMode.tsx:32-34 | 50 per level summed; at least 50 per building when every level is at least 1 |
| Campaign.CeilDiv | src/components/game/CampaignMode.tsx:38 | the ceiling of a / b |
| Campaign.Resolve | src/components/game/CampaignMode.tsx:36-38 | won iff 5 × player > 6 × enemy (iff the player power is positive when the enemy power is 0); a win has 2 or 3 stars, three exactly when the ratio exceeds 2, and three against no enemy power; a loss has 0 |
| Campaign.TenBarbariansExample | src/components/game/CampaignMode.tsx:36-38 | ten barbarians (530) against 400 win with two stars |
| Campaign.InitialMissionPowers | src/lib/gameStore.ts:99-169 | the five missions have enemy power 100, 250, 400, 700 and 950 |
| Campaign.EnemyPowerIsLevelTotal | src/components/game/CampaignMode.tsx:32-34 | for every list of enemy buildings, the enemy power is 50 × the total of their levels |
| Campaign.EmptyRosterCannotWin | src/components/game/CampaignMode.tsx:191 | an empty roster would always lose |
| Campaign.CompletedMissionIsLocked | src/components/game/CampaignMode.tsx:110 | once completed, a mission's Attack button is disabled |
| Campaign.AttackEnabled | src/components/game/CampaignMode.tsx:110 | the Attack button is enabled exactly on a mission not yet completed |
| Campaign.BattleEnabled | src/components/game/CampaignMode.tsx:191 | the Start Battle button is disabled exactly on an empty roster; on a store roster, enabled exactly when the roster has power |
| Campaign.SimulateBattle | src/components/game/CampaignMode.tsx:22-50 | the result is Resolve of the two powers; a win completes the mission, credits each reward once and empties the roster; a loss changes nothing |
| Clock.UpgradeLabel | src/components/game/BuildingCard.tsx:50-61 | hours and minutes from one hour up, minutes and seconds from one minute up, else seconds; fields floored from the ms input, minutes and seconds below 60 |
| Clock.TrainingLabel | src/components/game/TroopTraining.tsx:24-29 | minutes and seconds (seconds below 60, minutes unbounded) from 60 s up, else seconds |
| Clock.Render | src/components/game/BuildingCard.tsx:55-60 | an hours label ends in "m", the others end in "s" |
| Clock.RenderInjective | src/components/game/BuildingCard.tsx:55-60 | two labels render as the same text exactly when they are the same label: the text reads back the label's kind and both of its numbers |
| Clock.UpgradeLabelPrecision | src/components/game/BuildingCard.tsx:50-61 | below an hour the label is exact to the second; from an hour up it is exact to the minute |
| Clock.TrainingLabelExact | src/components/game/TroopTraining.tsx:24-29 | the training label reads back its exact second count |
| Clock.FormattersAgree | src/components/game/TroopTraining.tsx:24-29 | below an hour both formatters give the same label for whole seconds |
| Clock.FormattersDisagreeFromAnHour | src/components/game/BuildingCard.tsx:55-56 | at one hour they render "1h 0m" and "60m 0s" |
| Clock.RemainingMs | src/components/game/BuildingCard.tsx:26 | milliseconds left, 0 exactly when the end time has passed, never negative |
| Clock.RemainingSeconds | src/components/game/TroopTraining.tsx:83 | whole seconds left, the floor of the difference clamped at 0 |
| Clock.CountdownsNeverRise | src/components/game/TroopTraining.tsx:83 | both countdowns only go down as the clock advances |
| VillagePanels.MenuLeavesOutTownHall | src/components/game/VillageGrid.tsx:17 | the build menu offers every type except the town hall |
| VillagePanels.CountOfKind | src/components/game/VillageGrid.tsx:20 | the count of existing buildings of the type: 0 exactly when there is none |
| VillagePanels.CountAfterAdd | src/components/game/VillageGrid.tsx:20 | adding a building raises only its own type's count, by one |
| VillagePanels.NewBuilding | src/components/game/VillageGrid.tsx:37-44 | level 1, not upgrading, at the given cell, with id type-timestamp |
| VillagePanels.ChargeOneCurrency | src/components/game/VillageGrid.tsx:27-31 | for a one-currency price, success iff both non-zero parts are covered; then both fall by the price, otherwise nothing is charged |
| VillagePanels.Affords | src/components/game/VillageGrid.tsx:28-31 | success exactly when every non-zero part passes the store's debit; on non-negative stocks, exactly when both balances cover the price |
| VillagePanels.HandleBuildNew | src/components/game/VillageGrid.tsx:19-50 | refused, with nothing charged, when the build rule says no; otherwise built iff the level-1 price is affordable, and then charged and appended; a failed purchase changes nothing |
| VillagePanels.BuildCountsOne | src/components/game/VillageGrid.tsx:20-45 | a build adds one building of the requested type and no other |
| VillagePanels.BuildAtLevelOne | src/components/game/VillageGrid.tsx:19-25 | at town-hall level 1 a gold mine is allowed only while there is none, and army camps and barracks never are |
| VillagePanels.HandleUpgrade | src/components/game/BuildingCard.tsx:38-48 | nothing at the last level; otherwise started iff the next price is affordable, and then charged and upgrading; otherwise nothing changes |
| VillagePanels.Body | src/components/game/BuildingCard.tsx:89-136 | the countdown shows exactly while the building is upgrading; the upgrade offer shows exactly on an idle building that has a next-level price, and carries that price |
| VillagePanels.MaxLevelShown | src/components/game/BuildingCard.tsx:99-136 | "Max Level" shows exactly on an idle building of level 5 or more |
| VillagePanels.AdvertisedTimeIsNotUsed | src/components/game/BuildingCard.tsx:108 | the advertised upgrade time differs from the store's fixed minute (town hall level 1: two minutes) |
| VillagePanels.HandleTrainTroop | src/components/game/TroopTraining.tsx:15-22 | queued iff the elixir covers the price; then one entry ending at now + time × 1000 is appended and the elixir is charged; otherwise nothing changes |
| WarRules.BuildingCost | src/lib/maxWarConstants.ts:4-13 | no building costs food, and no price is negative |
| WarRules.BuildingHealth | src/lib/maxWarConstants.ts:28-37 | every building has at least 300 health |
| WarRules.UnitCosts | src/lib/maxWarConstants.ts:64-69 | every unit costs food, no stone, and takes time |
| WarRules.InitialResources | src/lib/maxWarStore.ts:104-112 | every starting stock is positive |
| WarRules.HarderStartsPoorer | src/lib/maxWarStore.ts:104-112 | a harder difficulty never starts with more of any resource |
| WarRules.EnemyHouses | src/lib/maxWarStore.ts:137 | floor(2 × multiplier) houses, at least 2 |
| WarRules.EnemyBarracks | src/lib/maxWarStore.ts:138 | floor(multiplier) barracks, at least 1 |
| WarRules.EnemyVillageSizes | src/lib/maxWarStore.ts:130-138 | 4, 5, 7 and 10 enemy buildings from easy to extreme, strictly growing |
| WarStore.Whole | src/components/game/BuildingPanel.tsx:37-39 | a complete cost record stands for its own amounts |
| WarStore.TrySpendAll | src/lib/maxWarStore.ts:232-252 | success exactly when all four balances cover the cost, absent fields counting as 0; then the rest plus the cost is the old stock, and no counter is negative |
| WarStore.SpendAfterCredit | src/lib/maxWarStore.ts:223-252 | spending what was just added restores a non-negative stock |
| WarStore.FirstWithId | src/lib/maxWarStore.ts:271-274 | the first building with that id, or none exactly when no building has it |
| WarStore.LoweredCap | src/lib/maxWarStore.ts:273-278 | when the first building with the id is a house, the cap becomes max(5, cap − 5); otherwise it is unchanged; from a cap of at least 5 it stays between 5 and the old cap |
| WarStore.RaisedCap | src/lib/maxWarStore.ts:259-263 | the cap never falls; it changes exactly for a player house, and then rises by 5 |
| WarStore.DropBuilding | src/lib/maxWarStore.ts:281 | no building with that id remains, and every other building is kept |
| WarStore.RemoveUndoesAdd | src/lib/maxWarStore.ts:254-289 | removing a player building just added restores the list and the cap |
| WarStore.FirstOfAppend | src/lib/maxWarStore.ts:274 | a new building with a fresh id is the one that removal finds |
| WarStore.RemovingAHouseCanOverfill | src/lib/maxWarStore.ts:276-278 | removing the only house of a full village of ten leaves a cap of 5, so usage can exceed the cap |
| WarStore.Healed | src/lib/maxWarStore.ts:292-295 | health becomes min(maxHealth, health + amount): never above the max, never above health + amount, and equal to one of them; nothing else changes |
| WarStore.HealComposes | src/lib/maxWarStore.ts:294 | two heals, the second non-negative, equal one heal by the sum |
| WarStore.HealAll | src/lib/maxWarStore.ts:291-301 | only the building with that id is healed; the others are unchanged |
| WarStore.ActiveLevels | src/lib/maxWarStore.ts:372-387 | the level sum of one type over finished buildings; 0 when every such building is under construction |
| WarStore.ConstructingAddsNothing | src/lib/maxWarStore.ts:373 | a building under construction adds nothing to production |
| WarStore.ProductionLevels | src/lib/maxWarStore.ts:367-387 | the accrual loop's lumber-mill, farm and mine sums over finished buildings |
| WarStore.DropUnit | src/lib/maxWarStore.ts:347 | no unit with that id remains, and every other unit is kept |
| WarStore.RecruitsShape | src/lib/maxWarStore.ts:312-323 | one player unit per completed entry, of its kind, at health = max health = 100, with distinct ids |
| WarStore.RecruitIdsDiffer | src/lib/maxWarStore.ts:315 | ids made at one instant differ when their indices differ |
| WarStore.TrainedUnits | src/lib/maxWarStore.ts:312-323 | the loop builds exactly the recruits of the completed entries |
| WarStore.EnemyVillageShape | src/lib/maxWarStore.ts:115-167 | the town hall first, then the houses, then the barracks, all enemy-owned, level 1, finished, at their type's full health, with distinct ids |
| WarStore.SuffixDiffers | src/lib/maxWarStore.ts:144 | ids with one prefix and different indices differ |
| WarStore.CreateEnemyVillage | src/lib/maxWarStore.ts:115-167 | the push loops build exactly the enemy village of the difficulty |
| WarStore.WarGame.constructor | src/lib/maxWarStore.ts:170-182 | no difficulty, not started, empty stock, cap 5, usage 0, empty lists and queue |
| WarStore.WarGame.SetDifficulty | src/lib/maxWarStore.ts:189 | the difficulty is set |
| WarStore.WarGame.StartGame | src/lib/maxWarStore.ts:191-219 | nothing without a difficulty; otherwise started, with the starting stock, the player town hall, the enemy village and lastUpdate := now |
| WarStore.WarGame.ResetGame | src/lib/maxWarStore.ts:221 | the initial state again, with the load-time clock reading |
| WarStore.WarGame.AddResources | src/lib/maxWarStore.ts:223-230 | each counter rises by its amount, absent amounts counting as 0 |
| WarStore.WarGame.SpendResources | src/lib/maxWarStore.ts:232-252 | success exactly when all four are covered; then every component is subtracted; otherwise nothing changes |
| WarStore.WarGame.AddBuilding | src/lib/maxWarStore.ts:254-268 | appended to the owner's list; the cap rises by 5 exactly for a player house; the cap stays at least 5 |
| WarStore.WarGame.RemoveBuilding | src/lib/maxWarStore.ts:270-289 | a player building with that id takes precedence and the cap is lowered for a house, never below 5; otherwise the enemy list is filtered |
| WarStore.WarGame.UpgradeBuildingHealth | src/lib/maxWarStore.ts:291-301 | both lists are healed at that id |
| WarStore.WarGame.TrainUnit | src/lib/maxWarStore.ts:303-305 | one entry ending at now + duration is appended |
| WarStore.WarGame.CompleteUnitTraining | src/lib/maxWarStore.ts:307-330 | the due entries become recruits appended in order, the rest stay queued, and usage grows by the number completed, so usage + queue length is kept |
| WarStore.WarGame.AddUnit | src/lib/maxWarStore.ts:332-340 | appended to the owner's list; usage rises by one for a player unit |
| WarStore.WarGame.RemoveUnit | src/lib/maxWarStore.ts:342-351 | a player unit with that id takes precedence and usage drops by one, never below 0; otherwise the enemy list is filtered |
| WarStore.WarGame.UpdateGame | src/lib/maxWarStore.ts:362-400 | wood and food gain floor(levels × ms / 1000), gold and stone floor(mine levels × ms / 2000), over finished buildings; no counter falls when now ≥ lastUpdate; lastUpdate := now |
| WarPanels.MenuLeavesOutTownHall | src/components/game/BuildingPanel.tsx:26-34 | the build panel offers every type except the town hall |
| WarPanels.CanAfford | src/components/game/BuildingPanel.tsx:61-67 | the panel's affordability test holds exactly when the store's spend of the whole price succeeds, and the stock left plus the price is the old stock |
| WarPanels.NewWarBuilding | src/components/game/BuildingPanel.tsx:40-54 | player-owned, level 1, under construction, health = max health = the type's health, due at now + construction time × 1000 |
| WarPanels.HandleBuild | src/components/game/BuildingPanel.tsx:36-59 | built iff affordable; then charged and appended, and a house raises the cap by 5; otherwise nothing changes |
| WarPanels.HasBarracks | src/components/game/UnitTrainingPanel.tsx:23 | true exactly when some building is a barracks not under construction |
| WarPanels.BuildingNeverEnablesBarracks | src/components/game/BuildingPanel.tsx:52 | a building placed from the panel never turns HasBarracks on |
| WarPanels.PanelBuildsNeverProduce | src/lib/maxWarStore.ts:372-387 | from the starting town hall, any run of panel builds leaves no finished barracks and no production |
| WarPanels.MilitaryNeedsBarracks | src/components/game/UnitTrainingPanel.tsx:46-51 | without a finished barracks every military unit's button is disabled |
| WarPanels.CanTrain | src/components/game/UnitTrainingPanel.tsx:46-51 | villagers can always be trained; a military unit exactly when a finished barracks exists |
| WarPanels.TrainDisabled | src/components/game/UnitTrainingPanel.tsx:78 | disabled whenever usage has reached the cap; enabled whenever usage is below the cap, the store's spend of the price succeeds and the unit is trainable (a villager, or a finished barracks exists); an enabled button's spend succeeds, and an enabled military button implies a finished barracks |
| WarPanels.HandleTrain | src/components/game/UnitTrainingPanel.tsx:25-36 | refused before any spend when usage ≥ cap; otherwise queued iff affordable, and then charged and queued for time × 1000 ms; otherwise nothing changes |
| WarPanels.HandleTrainCounted | src/components/game/UnitTrainingPanel.tsx:26 | the corrected check counts queued units as well, so usage + queue length never passes the cap through training |
| WarPanels.OvershootAsWritten | src/components/game/UnitTrainingPanel.tsx:25-29 | six villagers ordered at once on an easy start end as six units under a cap of five |
| WarPanels.OvershootCounted | src/components/game/UnitTrainingPanel.tsx:25-29 | with the corrected check the same orders end as five units under a cap of five |

## Left out

- Persistence and the store library: both stores are plain classes. Saving
  to local storage and reloading are not modelled.
- Timers and hooks: the per-second intervals that call the tick, the
  promotions and the upgrade completion, the countdown interval on the
  building card and the delayed completion on the village grid are not
  modelled. The model takes `now` as a parameter instead. The village
  hook only completes an upgrade once `upgradeEndTime <= now`. The store
  action itself has no such guard, so `CompleteBuildingUpgrade` has no
  precondition.
- Randomness: building positions are inputs. For the village grid they are
  bounded to 0..7.
- 3D positions and `moveUnit`: float triples are left out. Units and war
  buildings carry no position.
- Floating point: the 0.5-per-second rates and the division by 1000 use
  exact integer arithmetic. JavaScript's float rounding at large values is
  not modelled.
- Ids: a build reads the clock twice (id and end time). The model reads it
  once, so they share one `now`. Nothing in the source makes ids unique.
  The model proves only that ids made together (recruits of one promotion,
  one enemy village) are distinct.
- Aliasing: `completeTroopTraining` changes a roster object in place, and
  the campaign passes the store's own roster objects to `deployTroops`.
  The model works on values. Both produce the same resulting roster.
- Difficulty display multipliers and all rendering, routing and 3D scenes.
- Campaign.SimulateBattle: the battle-result dialog state is not modelled.
  The method returns the result instead.
- VillageStore.Village.UpdateResources: the gain counts buildings that are
  still upgrading, as the source does. Nothing more is claimed.
- War construction never finishes: no code clears `isConstructing`, so
  no construction-completion step is invented.
  `WarPanels.PanelBuildsNeverProduce` states the consequence.

## Findings

| source | as written | input that shows it | evidently intended | confidence | as-written member | corrected member |
|---|---|---|---|---|---|---|
| src/components/game/UnitTrainingPanel.tsx:26 | the population check compares only finished units with the cap, so queued units are not counted | an easy start (cap 5, no units) with six villagers ordered before any finishes; after promotion there are 6 units under a cap of 5 | queued units count against the cap, so finished plus queued units stay within it | medium, not executed | WarPanels.OvershootAsWritten | WarPanels.OvershootCounted |
