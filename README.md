# Ant colony simulation engine — a verified Dafny model

This project models the simulation engine of an ant-colony game (`hooks/useGameEngine.ts`).
The world has:

- a 120 × 80 tile grid;
- a parallel pheromone field;
- a list of ants (Workers, Soldiers, SuperSoldiers and a Queen);
- a list of invading enemies (Spiders, Beetles, Centipedes, Wasps and Termites);
- a resource record (food, materials, population, food capacity, score);
- a day clock and a threat level.

The player acts through four commands:

- `spawnAnt` buys an ant with food;
- `interactCell` applies a tool to one tile: dig, bait, rally, the three build tools, or war cry;
- `spawnEnemy`;
- `addResources`.

On each tick, `gameLoop` does the following, in order:

1. advances the clock;
2. raises the score;
3. recomputes the threat;
4. may grow a Food tile;
5. may spawn an enemy;
6. prunes dead ants and updates the others (flee, sleep, Queen, soldier and worker behaviour);
7. decays the pheromones;
8. lets every enemy hunt the nearest ant;
9. turns dead enemies into score and a square of Food.

The model has the source's shape:

- **`Types`**: the enums, records and constants.
- **`Progression`**: experience and levelling.
- **`Rules`**: the pure decisions and formulas.
- **`Grid`**: the tile accessors and in-place grid writes.
- **`Pheromones`**: the rally write and the decay loop.
- **`Search`**: the scans for the nearest enemy or ant, the first Queen, and the pheromone gradient.
- **`Lists`**: order-preserving filtering.
- **`Terrain`**: world generation.
- **`Engine`**: the `World` class.

The `World` class holds:

- the two grids as `array2` constants;
- the ant and enemy lists as `seq` fields;
- the resources, the clock, the threat and the auto-breed switch.

Its methods change these fields in place, as the source does.

Every `Math.random()` draw becomes an explicit parameter, and so does the result of each spiral tile search. The datatypes `MoveDraws`, `AntDraws`, `EnemyDraws` and `StepDraws` carry them, and an ant's or enemy's draws are picked by its list index. The world invariant `Valid` states:

- the grids have the right shape;
- the clock is in [0, 2000) and the threat in [0, 100];
- the score and population are non-negative;
- every ant is on the grid, at level 1 or more, with non-negative strength;
- every pheromone value is in [0, 1].

`Solvent` (no negative food or materials) is proved to be kept by every operation that starts from it, except `AddResources`. That command keeps it only for non-negative amounts, since the source adds whatever it is given.

An ant's turn in `updateAnt` is modelled in layers:

- The decisions are functions of the world before the turn: `Movement.PlanMove` (the moveAnt steps), `Engine.Blow`, `Engine.PatrolStep` and `Engine.ForageStep`.
- The outcomes are two-state predicates of the `World` class. They relate the world after a turn to the world before it: `Excavated` for moveAnt's grid, then `Fought`, `Patrolled`, `Soldiered`, `Hauled`, `Foraged`, `Reigned` and `Acted` for the species turns.
- Each turn method takes the ant as it enters the turn, after the flee check and the 0.05 energy charge. It writes that ant back first and is proved to produce exactly its predicate.

The model reproduces these behaviours of the code faithfully:

- **Food is paid before the Queen check.** `spawnAnt` deducts the cost before looking for a Queen. Without a Queen the food is lost and no ant appears.
- **Queen costs the default price.** `spawnAnt(Queen)` costs the Worker's 10 food and makes a 30-hp ant.
- **Sleep heals without a cap.** Sleeping adds health with no cap at `maxHealth` and energy with no cap at 100 (`Rules.SleepOvershoots`).
- **The aura can overshoot.** The Queen's aura may take health above `maxHealth` by less than 1.
- **Energy is never clamped.** Walking and mining can drive energy below 0.
- **Building ignores the tile.** The build tools overwrite whatever tile is clicked.
- **Digging Food ignores capacity.** Digging Food adds 5 food without checking the capacity.
- **A deposit can lose food.** The clamp in a Worker's deposit can lower food when the capacity shrinks (`Rules.DepositCanLoseFood`).
- **Dead enemies can be struck again.** An enemy at 0 health or less stays in the list until the end of the tick. Soldiers can strike it again and be credited another kill.
- **Softness is decided before the slide.** `moveAnt` decides whether the first tile is soft before sliding and reuses that answer afterwards.
  - `Rules.StaleSoftHarmless` proves this never lets an ant mine a tile that is not soft.
  - The other direction does not hold. An ant whose first tile was a hard block (Rock or Defense) and that slides onto Food or Gem does not mine it, even though it may mine that tile. `Movement.PlanMove` keeps the stale answer, so `Movement.Landed` leaves such an ant where it is.
- **Stale population.** Threat uses the population recorded at the end of the previous `gameLoop` call.

The code clamps neither energy to [0, 100] nor health to `maxHealth` on sleep and aura, and the model follows the code. `interactCell` indexes the grid without a bounds check. Its only caller filters clicks to the grid (`components/GameCanvas.tsx:353`), so in-bounds coordinates are a precondition.

## Model

| member | source | states |
|---|---|---|
| Types.AntFoodCost | hooks/useGameEngine.ts:601-604 | an ant costs 10, 30 or 150 food: 30 exactly for a Soldier, 150 exactly for a SuperSoldier, 10 for every other kind |
| Types.Sign | hooks/useGameEngine.ts:358-359 | the sign is -1, 0 or 1; it is 0 exactly for 0, and sign times value is the absolute value |
| Progression.Threshold | hooks/useGameEngine.ts:159 | the experience a level needs: 10 · 1.5^(level - 1) |
| Progression.PowAdd | hooks/useGameEngine.ts:159 | the power function behind the level curve satisfies b^(m+n) = b^m · b^n |
| Progression.ThresholdGrowth | hooks/useGameEngine.ts:159 | every level's XP threshold is at least 10; each next threshold is exactly 1.5 times the previous one, so strictly larger |
| Progression.ThresholdMonotone | hooks/useGameEngine.ts:159 | a higher level never has a lower threshold |
| Progression.GainXp | hooks/useGameEngine.ts:156-171 | the level rises by at most 1, and rises exactly when xp + amount reaches the threshold. Without a level-up only xp changes, by exactly the amount. A level-up removes the threshold from xp, adds 15·(new level) to maxHealth, refills health, and adds 0.05 speed and 0.5 strength. Kind, position, job, load, energy and kills never change |
| Progression.GainXpMonotone | hooks/useGameEngine.ts:156-171 | gaining experience never lowers level, maxHealth, speed or strength. Non-negative xp stays non-negative, and health at or below maxHealth stays so |
| Progression.GainAll | hooks/useGameEngine.ts:156-171 | a run of gains raises the level by at most one per gain and never lowers it |
| Rules.NextTime | hooks/useGameEngine.ts:468 | the clock stays in [0, 2000); it advances by one, or wraps to 0 at the end of the day |
| Rules.IsNight | hooks/useGameEngine.ts:315 | night is a clock above 1300 or below 500 |
| Rules.Threat | hooks/useGameEngine.ts:472 | threat is at most 100, and non-negative for non-negative score and population. Below 100 it is the floor of score/500 + population/20. It is 100 exactly when that sum reaches 100 |
| Rules.ThreatMonotone | hooks/useGameEngine.ts:472 | more score or more population never lowers the threat |
| Rules.SpawnChance | hooks/useGameEngine.ts:484 | the spawn chance is 0 at threat 0, 0.02 at threat 100, and in [0, 0.02] in between |
| Rules.SpawnKind | hooks/useGameEngine.ts:711-729 | each species exactly when its branch is the first that applies. Termite iff threat > 50 and roll > 70. Wasp iff threat > 20 and roll > 50, and not Termite. Centipede iff threat ≤ 20 and roll > 80. Beetle iff roll is in (40, 80] and not Wasp. Spider iff roll ≤ 40 |
| Rules.NewEnemy | hooks/useGameEngine.ts:731-739 | a spawned enemy has the chosen species, full health from the 400/200/300/150/100 table, the given column, and row 2 for a Wasp, 5 otherwise |
| Rules.Newborn | hooks/useGameEngine.ts:612-636 | a new ant has the requested kind and position, level 1, no xp or kills, energy 100, the Idle job and no load. Health = maxHealth = 30, 80 or 250. Strength is 3 for a Soldier, 8 for a SuperSoldier and 1 otherwise. Speed is 1.3 for a SuperSoldier and 0.8 + 0.4·roll otherwise, so in [0.8, 1.3] for a roll in [0, 1) |
| Rules.Enrage | hooks/useGameEngine.ts:699-704 | war cry gives a Soldier or SuperSoldier energy 100 and the Attacking job, and leaves other ants untouched |
| Rules.Flee | hooks/useGameEngine.ts:317-321 | only the job can change. A non-Queen ant below 25 % (Worker) or 10 % (others) of maxHealth flees, and an ant already fleeing stays so. Any other ant, a Queen included, is unchanged |
| Rules.SleepGate | hooks/useGameEngine.ts:323-325 | an ant sleeps when there are at most 5 enemies, it is not fleeing, and it is out of energy or a Worker at night |
| Rules.SleepStep | hooks/useGameEngine.ts:324-332 | a sleeping tick adds exactly 0.5 energy and 0.1 health and sets the job to Idle once energy reaches 100, else Sleeping. Nothing else changes |
| Rules.SleepOvershoots | hooks/useGameEngine.ts:328 | a concrete Worker at full health and energy that sleeps ends above its maxHealth and above 100 energy |
| Rules.CanBreed | hooks/useGameEngine.ts:339 | auto-breed is possible when the switch is on, food is above 50 and the colony is below 800 ants |
| Rules.BreedKind | hooks/useGameEngine.ts:341 | the bred kind is a Soldier for a roll above 0.8 and a Worker otherwise |
| Rules.InAura | hooks/useGameEngine.ts:347 | the aura is the square strictly less than 8 tiles from the Queen on both axes |
| Rules.AuraHeal | hooks/useGameEngine.ts:348 | only health changes. A wounded ant gains exactly 1 and ends below maxHealth + 1; a healthy one is untouched |
| Rules.ReachMonotone | hooks/useGameEngine.ts:363 | each level strictly extends a soldier's reach |
| Rules.Reach | hooks/useGameEngine.ts:363 | any soldier (level 1 or more) reaches at least 1.15 tiles |
| Rules.Feast | hooks/useGameEngine.ts:374 | the feast heals by 50 up to maxHealth: the result is the old health + 50 or maxHealth, never above either, and never below a health that was within maxHealth |
| Rules.Strike | hooks/useGameEngine.ts:366-376 | the enemy loses exactly twice the soldier's strength and nothing else. A blow that leaves the enemy above 0 gives the soldier exactly GainXp(2). A kill gives GainXp(2), then one more kill and the feast heal, then GainXp(50). Level and strength never drop, and kind and position are kept |
| Rules.Quantise | hooks/useGameEngine.ts:226-227 | each direction component becomes -1, 0 or 1 with the same sign, 0 exactly for 0, and unchanged if already in range |
| Rules.CanCrush | hooks/useGameEngine.ts:235 | an ant crushes obstacles when it is a Soldier or SuperSoldier above level 5 |
| Rules.Crushes | hooks/useGameEngine.ts:237-238 | such an ant crushes Dirt always and Defense on a crush roll below 0.2 |
| Rules.PassabilityPartition | hooks/useGameEngine.ts:246-247 | every tile kind is exactly one of open, hard block and soft block |
| Rules.Blocked | hooks/useGameEngine.ts:250 | a move is blocked by a hard block, or by a soft block when the ant is not on the Mining job |
| Rules.StaleSoftHarmless | hooks/useGameEngine.ts:246-272 | if the first tile was soft and blocked, and the ant may mine the tile reached after the slide, that tile is soft too |
| Rules.CanMine | hooks/useGameEngine.ts:266 | an ant may mine when it is on the Mining job, or is not a Queen and faces Food or Gem |
| Rules.MineChance | hooks/useGameEngine.ts:274 | a SuperSoldier's mine chance is 0.9; any other ant with non-negative strength has at most 0.7 |
| Rules.MineEffect | hooks/useGameEngine.ts:276-296 | per tile kind: a Gem gives 500 score and 50 xp; Dirt gives 1 material, 1 score and 1 xp. Food heals a wounded or combat ant by 30 (up to maxHealth), refills energy and gives 10 xp. Otherwise a Worker that is not carrying picks the Food up and turns to Returning. Non-soft tiles do nothing, mining never gives food, and level, strength, kind and position never drop or move |
| Rules.DigGain | hooks/useGameEngine.ts:647-660 | a dig gives 1 material exactly for Dirt, Food and Gem tiles, 5 food exactly for Food, 500 score exactly for a Gem, and nothing for other tiles |
| Rules.MaxFoodFor | hooks/useGameEngine.ts:426 | capacity is at least 1000 |
| Rules.Deposit | hooks/useGameEngine.ts:422-427 | a deposit adds 5 score and sets the capacity to 1000 + 500 per Storage tile. Food becomes the old food + 5, cut down to the capacity, so food ≤ capacity afterwards. Non-negative food stays non-negative; materials and population are kept |
| Rules.DepositCanLoseFood | hooks/useGameEngine.ts:427 | with 2000 food and no Storage tiles a deposit leaves 1000 food |
| Rules.EnemyMove | hooks/useGameEngine.ts:525-558 | with a target, the enemy moves toward it on each axis by exactly its pace (Wasp 0.4, Termite 0.1, others 0.15), or not at all on an axis where it is level with the target. Without one, a Wasp wanders by exactly (wx - 0.5, wy - 0.5), and a Termite stays put. A Spider, Beetle or Centipede drifts sideways by exactly (wx - 0.5) · 0.2 and sinks by 0.05 while above row 35. Species and health never change |
| Rules.WanderBound | hooks/useGameEngine.ts:531-554 | with draws in [0, 1], an enemy without a target moves at most half a tile on each axis |
| Rules.MeatRadius | hooks/useGameEngine.ts:576 | the Food square's half-width is 3 exactly for a Beetle and 2 otherwise |
| Rules.Covers | hooks/useGameEngine.ts:573-579 | a dead enemy's Food square is every tile within the half-width of its floored position on both axes |
| Grid.GetCell | hooks/useGameEngine.ts:131-134 | reads a tile, with every coordinate outside the grid reading as Rock |
| Grid.NotRockInBounds | hooks/useGameEngine.ts:131-134 | a read that is not Rock lies inside the grid, because every out-of-bounds read is Rock |
| Grid.SetCell | hooks/useGameEngine.ts:136-139 | an in-bounds write changes exactly that tile, and every other tile reads as before. An out-of-bounds write leaves the grid unchanged |
| Grid.CountKind | hooks/useGameEngine.ts:425 | the count of tiles of a kind is at most 9600, and is 0 exactly when no tile has that kind |
| Grid.FillRect | hooks/useGameEngine.ts:577-581 | exactly the in-bounds tiles of the rectangle get the new kind; all other tiles are unchanged |
| Grid.StampMeat | hooks/useGameEngine.ts:573-582 | exactly the in-bounds tiles within the Food square's half-width of the enemy's floored position (on both axes) become Food; all others are unchanged |
| Pheromones.DiscIsEuclidean | hooks/useGameEngine.ts:671-672 | the tiles the rally loops mark are exactly the offsets with dx² + dy² ≤ 36, so the square bound leaves out none of them |
| Pheromones.RallyScenario | hooks/useGameEngine.ts:664-676 | a rally at (10, 10) on an empty field sets (10, 10) and (16, 10), which lie in the disc, and leaves (20, 10) at 0 |
| Pheromones.RallyAt | hooks/useGameEngine.ts:664-676 | the intensity becomes 1.0 at exactly the in-bounds tiles of the radius-6 disc around the click, and every other tile keeps its value |
| Pheromones.DecayCell | hooks/useGameEngine.ts:505-508 | a non-positive value is untouched. A positive value strictly drops: it becomes exactly 0.95 times itself when that product is at least 0.01, and is snapped to exactly 0 otherwise. Values in [0, 1] stay in [0, 1] |
| Pheromones.Decay | hooks/useGameEngine.ts:503-510 | every tile of the field is replaced by its one-tick decay |
| Pheromones.DecayedMonotone | hooks/useGameEngine.ts:503-510 | without a new rally an intensity in [0, 1] never rises and stays in [0, 1] |
| Pheromones.DecayedBound | hooks/useGameEngine.ts:503-510 | after n ticks an intensity in [0, 1] is at most 0.95^n |
| Pheromones.TwentyTicksBound | hooks/useGameEngine.ts:505-506 | twenty decay factors multiply to less than 0.36 |
| Pheromones.FifthPowerBound | hooks/useGameEngine.ts:505-506 | any value below 0.36, raised to the fifth power, is below the 0.01 snap threshold |
| Pheromones.HundredTicksBelowEpsilon | hooks/useGameEngine.ts:505-506 | 0.95^100 is below the 0.01 snap threshold |
| Pheromones.DecayReachesZero | hooks/useGameEngine.ts:503-510 | any intensity in [0, 1] is exactly 0 after 100 ticks without a rally |
| Search.NearestEnemy | hooks/useGameEngine.ts:178-188 | None exactly when no enemy is Manhattan-closer than 100. Otherwise the result is such an enemy, no enemy is closer, and every earlier enemy is strictly farther (the first minimum wins) |
| Search.ScanAntsNearest | hooks/useGameEngine.ts:515-523 | the enemies' target scan finds no ant exactly when every ant is at least 40 away, and the distance then stays 40. Otherwise it finds an ant at the returned distance, below 40, that no ant beats and no earlier ant ties |
| Search.ScanAntsPositional | hooks/useGameEngine.ts:515-523 | the target scan reads only the ants' positions, so two ant lists with the same positions give every enemy the same target |
| Search.NearestAnt | hooks/useGameEngine.ts:515-523 | the loop computes the target scan. None exactly when no ant is closer than 40, and the distance is then 40. Otherwise the result is the closest ant, the first on a tie, and the distance is its own |
| Search.FirstQueen | hooks/useGameEngine.ts:610 | None exactly when there is no Queen; otherwise the index of a Queen with no Queen before it |
| Search.NestPoint | hooks/useGameEngine.ts:190-195 | the tile of the first Queen in the list (a Queen with no Queen before it) when there is one, else the default nest tile (60, 35) |
| Search.FirstEnemyAt | hooks/useGameEngine.ts:365 | None exactly when no enemy stands at the position; otherwise the first enemy standing there |
| Search.StrongestNeighbour | hooks/useGameEngine.ts:383-397 | the outcome is the gradient: the best is at least every in-bounds neighbour's intensity and is 0 with offset (0, 0) when none is positive. Otherwise the offset names an in-bounds neighbour holding that maximum, and no neighbour earlier in scan order reaches it |
| Search.ScanRow | hooks/useGameEngine.ts:386-396 | one row of the scan never lowers the running best. Afterwards the best is at least every in-bounds neighbour in that row. When the row raises it, the offset is the first neighbour of the row holding the new best; otherwise the offset is kept |
| Lists.Filter | hooks/useGameEngine.ts:489 | the result is no longer than the list |
| Lists.FilterMembers | hooks/useGameEngine.ts:489 | an element is kept exactly when it is in the list and passes the test |
| Lists.FilterSnoc | hooks/useGameEngine.ts:568-570 | filtering a list extended by one element extends the result by that element exactly when it passes |
| Lists.FilterSplit | hooks/useGameEngine.ts:567-586 | when two tests are complements, the elements kept by each together number the whole list, so every enemy removed by the cleanup is a dead one |
| Terrain.Layout | hooks/useGameEngine.ts:25-48 | the layout has only Air, Nest and Dirt. Every row above 15 is Air, and Nest lies only within the 5 × 5 room around (60, 35) |
| Terrain.InSomeClusterExists | hooks/useGameEngine.ts:95-106 | a tile is cluster Food exactly when some cluster's square contains it |
| Terrain.Generate | hooks/useGameEngine.ts:24-113 | each tile of the new grid is Gem if a gem was placed there, else Food if a cluster covers it, else the layout's tile |
| Movement.Slide | hooks/useGameEngine.ts:251-259 | a diagonal or null move is kept. A horizontal move turns down onto Air, else up onto Air, else takes the jitter. A vertical move turns right onto Air, else left onto Air, else takes the jitter. Directions stay in [-1, 1] |
| Movement.PlanMove | hooks/useGameEngine.ts:222-266 | the plan skips exactly when the speed roll exceeds the speed. The first tile is one quantised step away, and it is crushed exactly when `Rules.Crushes` holds for it; a crushed tile is aimed at as Air and is not soft. The aimed cell is the tile at the aim. The stale softness is that of the first tile. An unblocked first tile is the aim. After a blocked one, the aim is the ant's tile moved by `Movement.Slide`'s direction for the quantised move and the jitter. The aim is at most one step away, an open aim is on the grid, and a mine the stale softness allows is of a soft tile |
| Movement.Landed | hooks/useGameEngine.ts:265-302 | on an open tile the ant steps onto it and nothing else changes. A successful mine gives the tile's effect less 0.5 energy, and a failed attempt costs 0.5 energy only. Otherwise the ant is unchanged. Kind, level and strength never drop |
| Movement.LandGain | hooks/useGameEngine.ts:272-296 | a successful mine credits exactly the tile's gain, and anything else credits nothing; mining never gives food |
| Movement.Moved | hooks/useGameEngine.ts:222-310 | moveAnt keeps kind and never lowers level or strength, moves at most one tile per axis, and keeps an ant on the grid |
| Movement.MovedStep | hooks/useGameEngine.ts:222-271 | when the move succeeds (the speed roll allows it and the aimed tile is open), the ant stands on the aimed tile, on the grid and at most one step away, with nothing else changed. Otherwise it stays where it was. Kind, level and strength never drop |
| Movement.MovedMining | hooks/useGameEngine.ts:272-301 | a successful mine leaves the ant with the tile's effect less 0.5 energy and credits exactly the tile's gain. A failed mine costs exactly 0.5 energy and credits nothing. Nothing else credits anything |
| Movement.ClearedTiles | hooks/useGameEngine.ts:235-298 | moveAnt clears at most one tile, on the grid, holding Dirt, Defense, Food or Gem; a cleared Defense tile needs an ant that crushes and a crush roll below 0.2 |
| Engine.BuriedExists | hooks/useGameEngine.ts:567-586 | a tile is buried exactly when some dead enemy's Food square covers it |
| Engine.BuriedSnoc | hooks/useGameEngine.ts:568-582 | one more enemy buries a tile exactly when the tile was already buried or that enemy is dead and its Food square covers the tile |
| Engine.Goal | hooks/useGameEngine.ts:515-523 | an enemy has no goal exactly when every ant is at least 40 away. Otherwise the goal is the tile of an ant closer than 40 that no ant beats and no earlier ant ties |
| Engine.Bite | hooks/useGameEngine.ts:560-561 | an enemy bites an ant closer than 2 that no ant beats and no earlier ant ties, and it bites nobody exactly when every ant is at least 2 away |
| Engine.Bites | hooks/useGameEngine.ts:513-564 | an ant is bitten at most once per enemy |
| Engine.BitesSnoc | hooks/useGameEngine.ts:513-564 | one more enemy adds one bite to an ant exactly when it bites that ant |
| Engine.BittenSnoc | hooks/useGameEngine.ts:513-564 | bites accumulate: after one more enemy bites, each ant has lost 5 health per bite from the enemies so far, counted on the ants at the start of the pass |
| Engine.DugSnoc | hooks/useGameEngine.ts:537-541 | one more enemy digs a tile exactly when the tile was dug or that enemy is a Termite standing on it |
| Engine.Positional | hooks/useGameEngine.ts:515-561 | an enemy's goal and bite depend only on the ants' positions, so wounds from earlier bites change neither |
| Engine.Burrow | hooks/useGameEngine.ts:537-541 | a Termite turns the Dirt tile at its floored position to Air, and nothing else changes |
| Engine.Blow | hooks/useGameEngine.ts:363-366 | a soldier strikes the first enemy at the sighted position exactly when that position is within its reach and an enemy stands there |
| Engine.Unload | hooks/useGameEngine.ts:421-424 | the unloading Worker is exactly its 5-xp gain with the load put down, so it keeps its kind and position and loses no level |
| Engine.PatrolStep | hooks/useGameEngine.ts:399-405 | a patrolling soldier climbs the gradient when the best intensity is above 0.05, else wanders on a roll below 0.2, else stays |
| Engine.ForageStep | hooks/useGameEngine.ts:432-454 | toward reported Food, on the Mining job when within one tile of it. Else toward a Gem less than 8 columns away. Else a wander on a roll below 0.4, always downwards in the sky band. Else no move. Only the job of the ant can change before the move |
| Engine.World.constructor | hooks/useGameEngine.ts:24-126 | the world starts valid and solvent. It has the generated terrain, an empty pheromone field, the Queen at (60, 35) followed by 12 level-1 Workers, no enemies, the initial resources (300 food, 100 materials), time 600, threat 0 and auto-breed off |
| Engine.World.SpawnAnt | hooks/useGameEngine.ts:601-641 | refused (no change at all) when food is below the cost or there are 800 ants. Otherwise food drops by exactly the cost, and the newborn is appended at the first Queen's tile if there is a Queen; ants are unchanged if not |
| Engine.World.WarCry | hooks/useGameEngine.ts:697-705 | every ant is replaced by its enraged self; the list keeps its length |
| Engine.World.InteractCell | hooks/useGameEngine.ts:643-707 | dig credits the tile's gain and clears exactly a soft tile to Air. Bait puts Food on exactly the clicked tile. Rally writes exactly the disc and keeps grid and resources. A build pays its cost, overwrites exactly the clicked tile and adds its score when materials suffice, and otherwise changes nothing. War cry enrages every ant. Ants and the pheromone field change only for their own tools, and solvency is kept |
| Engine.World.Build | hooks/useGameEngine.ts:677-696 | all-or-nothing on materials: the cost is paid, exactly the clicked tile becomes the building and its score is added, or nothing changes |
| Engine.World.SpawnEnemy | hooks/useGameEngine.ts:709-740 | exactly the spawned enemy for the current threat and roll is appended |
| Engine.World.AddResources | hooks/useGameEngine.ts:742-745 | food and materials grow by exactly the amounts and nothing else changes; solvency is kept for non-negative amounts |
| Engine.World.MoveAnt | hooks/useGameEngine.ts:222-310 | the ant becomes exactly `Movement.Moved` of its plan. The counters gain exactly `Movement.MoveGain`, and exactly the crushed or mined tile becomes Air. The result is whether the move succeeded (not skipped, and the aimed tile open). Other ants never change |
| Engine.World.Land | hooks/useGameEngine.ts:265-302 | the ant becomes exactly `Movement.Landed` and the counters gain exactly `Movement.LandGain`. Exactly the successfully mined tile becomes Air. The result is whether the aimed tile was open |
| Engine.World.Aura | hooks/useGameEngine.ts:345-350 | every ant other than the Queen within 8 tiles on both axes gets the aura heal, and every other ant is unchanged |
| Engine.World.QueenTurn | hooks/useGameEngine.ts:337-351 | exactly `Reigned`. On a breed (gate open and roll below 0.05) the bred kind's price is taken. The newborn is appended at the first Queen's tile exactly when there is a Queen. Every other ant present before gets the aura heal when in the aura |
| Engine.World.SoldierTurn | hooks/useGameEngine.ts:355-406 | exactly `Soldiered`. The returned enemy is the nearest one in sight, and the soldier fights it as `Fought` says. With none, the soldier patrols as `Patrolled` says, with the returned gradient |
| Engine.World.Fight | hooks/useGameEngine.ts:356-379 | exactly `Fought`: the soldier makes moveAnt's move toward the enemy's position. If that position is then within reach, the first enemy there takes `Rules.Strike` and the soldier gets its rewards; otherwise only the move happens |
| Engine.World.Patrol | hooks/useGameEngine.ts:382-406 | exactly `Patrolled`: the returned best and offset are the gradient scan around the soldier, and the soldier makes `Engine.PatrolStep`'s move or stays |
| Engine.World.WorkerTurn | hooks/useGameEngine.ts:410-456 | exactly `Hauled` for a carrying Worker and `Foraged` otherwise |
| Engine.World.Haul | hooks/useGameEngine.ts:411-430 | exactly `Hauled`: one move toward the reported depot (or (60, 35)). Within 2 tiles of it on both axes, the Worker unloads and gains 5 xp, and the deposit counts Storage tiles on the grid after the move |
| Engine.World.Forage | hooks/useGameEngine.ts:432-455 | exactly `Foraged`: `Engine.ForageStep`'s move, and the switch to Mining after a move toward a Gem |
| Engine.World.UpdateAnt | hooks/useGameEngine.ts:312-335 | a dead ant changes nothing. An ant at the sleep gate (after the flee check) takes exactly one sleep step and nothing else changes. Otherwise the world is exactly `Acted` for the ant after the flee check and a 0.05 energy charge |
| Engine.World.Act | hooks/useGameEngine.ts:336-456 | exactly `Acted`: the Queen's turn, a soldier's turn or a Worker's turn for the kind of the entering ant |
| Engine.World.PruneAnts | hooks/useGameEngine.ts:489 | the ants become exactly the living ones (positive health) in their original order: every ant left is alive, and an ant stays exactly when it was alive |
| Engine.World.AntPhase | hooks/useGameEngine.ts:489-490 | after the prune and the ants' pass, the first ants are the survivors of the prune in order, with their kinds kept and no level lost. Validity, solvency, population and the enemies' fields other than health are kept; enemies never gain health, and score never drops |
| Engine.World.UpdateAnts | hooks/useGameEngine.ts:490 | the pass over the ants present at its start keeps the world valid and solvent and never lowers the score. Those ants keep their kind and never lose a level. Enemies keep every field but health, never gain health, and none is added |
| Engine.World.EnemyPhase | hooks/useGameEngine.ts:513-564 | every enemy becomes its pursuit from the ants at the start of the pass. Each ant loses exactly 5 health per enemy that bites it, and keeps its kind and level. Exactly the Dirt tiles under a Termite become Air |
| Engine.World.EnemyAct | hooks/useGameEngine.ts:513-564 | the enemy becomes its pursuit of its goal, its bite takes 5 health from exactly the bitten ant, and a Termite turns exactly the Dirt tile it stands on to Air |
| Engine.World.Bury | hooks/useGameEngine.ts:571-582 | burying an enemy adds exactly 200 score and turns exactly its Food square to Food |
| Engine.World.Sift | hooks/useGameEngine.ts:568-584 | an alive enemy is appended to the survivors and changes nothing else. A dead one adds exactly 200 score and turns exactly its Food square to Food |
| Engine.World.Cleanup | hooks/useGameEngine.ts:566-586 | the enemies become exactly the survivors in their original order, and the dead ones number exactly the removed ones. Score grows by exactly 200 per dead enemy, and exactly the tiles covered by a dead enemy's square become Food |
| Engine.World.Advance | hooks/useGameEngine.ts:468-486 | the clock advances with wrap, score grows by exactly 0.01 and threat is recomputed from it. The spawned enemy is appended exactly when the roll is below the spawn chance. The drawn tile becomes Food exactly when the roll is below 0.2, it holds Air or Dirt and it lies below row 15; every other tile is kept |
| Engine.World.Step | hooks/useGameEngine.ts:466-587 | a tick keeps the world valid and solvent. It advances the clock and sets threat from the score + 0.01, and population is kept. The enemy list grows by at most one. Score grows by at least 0.01 plus 200 for every enemy fewer than at the start. Every pheromone is decayed once, and every enemy left has positive health. The first ants are the survivors of the dead-ant prune, in order, with their kinds kept and no level lost |
| Engine.World.GameLoop | hooks/useGameEngine.ts:460-591 | after n steps the clock is advanced by n modulo 2000, the score by at least 0.01·n, and the population equals the ant count; validity and solvency are kept |

## Left out

- Particles (hooks/useGameEngine.ts:141-154, 493-500) are cosmetic and never read by the engine's logic, so every particle effect is dropped.
- Ant rotation (hooks/useGameEngine.ts:305-307) uses atan2 and only feeds rendering; the `angle` field is not modelled.
- The Ant fields `sleepiness` and `target` (types.ts) are written at spawn but never read by the engine, so they are not modelled.
- The spiral tile search for Storage/Nest, Food and Gem tiles (hooks/useGameEngine.ts:197-220) uses cos/sin. Its results are parameters, and the model does not assume they name a tile of the requested kind, so every behaviour is proved for any reported tile.
- `Math.random()` draws are parameters and their distributions are not modelled. Only the ranges the code relies on are required: jitter in [-1, 1], the fungal tile on the grid, and generated features in the ranges the generator draws.
- `Date.now()`-based ids are left out; ants and enemies are identified by their list index.
- React plumbing (refs, state, the 30 Hz interval, hooks/useGameEngine.ts:21, 590, 593-596) is left out. `gameSpeed` is the number of step records passed to `GameLoop`.
- The canvas, the UI and the network service (`components/GameCanvas.tsx`, `App.tsx`, `services/geminiService.ts`) are not part of this model.
- JavaScript numbers are doubles. The model uses exact `real` for score, health, energy, xp, speed, strength and enemy positions, and unbounded `int` for tile coordinates, food and materials, so rounding and precision loss are not modelled.
- Engine.World.UpdateAnts: states the facts every ant's update keeps, not the composition of the per-ant outcomes. Each ant's turn reads the world its predecessors left, and `Engine.World.UpdateAnt` gives each turn exactly.
- Engine.World.Step: states the clock, threat, score, population, enemy-count, pheromone, surviving-enemy and surviving-ant facts, not the exact composed new state. That state is the composition of the ants' pass, which `Engine.World.UpdateAnts` does not state exactly. Its parts `Advance`, `PruneAnts`, `UpdateAnts`, `Decay`, `EnemyPhase` and `Cleanup` carry their own contracts.
- Engine.World.AntPhase: states only the facts the ants' pass keeps, for the same reason as `Engine.World.UpdateAnts`.
