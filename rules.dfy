/**
 * The engine's pure rules (hooks/useGameEngine.ts): the clock, threat and
 * spawn director, the ant pre-checks, the Queen's aura, soldier combat,
 * movement and mining decisions, the Worker deposit and the enemy moves.
 */
module Rules {
  import opened Types
  import opened Progression

  // ---------------------------------------------------------------- clock

  /** The clock advances by one tick and wraps at the end of the day. */
  function NextTime(t: int): (r: int)
    requires 0 <= t < DayLength
    ensures 0 <= r < DayLength
    ensures t + 1 < DayLength ==> r == t + 1
    ensures t + 1 == DayLength ==> r == 0
  {
    (t + 1) % DayLength
  }

  predicate IsNight(t: int) {
    t > 1300 || t < 500
  }

  // ---------------------------------------------------- threat and spawns

  /** Threat: score/500 + population/20, rounded down and capped at 100. */
  function Threat(score: real, population: int): (r: int)
    ensures r <= 100
    ensures score >= 0.0 && population >= 0 ==> 0 <= r
    ensures r < 100 ==> r as real <= score / 500.0 + population as real / 20.0 < r as real + 1.0
    ensures r == 100 <==> score / 500.0 + population as real / 20.0 >= 100.0
  {
    var raw := (score / 500.0 + population as real / 20.0).Floor;
    if raw < 100 then raw else 100
  }

  /** More score or more ants never lower the threat. */
  lemma ThreatMonotone(s1: real, p1: int, s2: real, p2: int)
    requires s1 <= s2 && p1 <= p2
    ensures Threat(s1, p1) <= Threat(s2, p2)
  {
    var v1 := s1 / 500.0 + p1 as real / 20.0;
    var v2 := s2 / 500.0 + p2 as real / 20.0;
    assert v1 <= v2;
    assert v1.Floor <= v2.Floor;
  }

  /** Per-tick probability of an automatic enemy spawn. */
  function SpawnChance(threat: int): (p: real)
    ensures threat == 0 ==> p == 0.0
    ensures threat == 100 ==> p == 0.02
    ensures 0 <= threat <= 100 ==> 0.0 <= p <= 0.02
  {
    threat as real / 5000.0
  }

  /**
   * Species chosen for a spawned enemy from the current threat and a roll in
   * [0, 100): Termites need threat above 50, Wasps threat above 20, and
   * Spider, Beetle and Centipede are always possible.
   */
  function SpawnKind(threat: int, roll: real): (k: EnemyType)
    ensures threat <= 20 ==> k != Wasp && k != Termite
    ensures threat <= 50 ==> k != Termite
    ensures k == Termite <==> threat > 50 && roll > 70.0
    ensures k == Spider <==> roll <= 40.0
    ensures k == Wasp <==> threat > 20 && roll > 50.0 && !(threat > 50 && roll > 70.0)
    ensures k == Centipede <==> threat <= 20 && roll > 80.0
    ensures k == Beetle <==> 40.0 < roll <= 80.0 && !(threat > 20 && roll > 50.0)
  {
    if threat > 50 && roll > 70.0 then Termite
    else if threat > 20 && roll > 50.0 then Wasp
    else if roll > 80.0 then Centipede
    else if roll > 40.0 then Beetle
    else Spider
  }

  /** Hit points a freshly spawned enemy of each species starts with. */
  function SpawnHealth(k: EnemyType): real {
    match k
    case Termite => 400.0
    case Wasp => 200.0
    case Centipede => 300.0
    case Beetle => 150.0
    case Spider => 100.0
  }

  /** A spawned enemy: flyers (Wasps) appear at row 2, all others at row 5, at full health. */
  function NewEnemy(threat: int, roll: real, column: int): (e: Enemy)
    ensures e.health == e.maxHealth == SpawnHealth(e.kind) > 0.0
    ensures e.kind == SpawnKind(threat, roll)
    ensures e.x == column as real
    ensures e.y == (if e.kind == Wasp then 2.0 else 5.0)
  {
    var k := SpawnKind(threat, roll);
    Enemy(k, column as real, if k == Wasp then 2.0 else 5.0, SpawnHealth(k), SpawnHealth(k))
  }

  // ------------------------------------------------ spawning and commands

  /** Starting hit points of a new ant of kind t (a kind without an entry gets the Worker's). */
  function NewbornHealth(t: AntType): real {
    match t
    case Soldier => 80.0
    case SuperSoldier => 250.0
    case _ => 30.0
  }

  /** A new ant of kind t at (x, y); speedRoll is the draw that sets a non-SuperSoldier's speed. */
  function Newborn(t: AntType, x: int, y: int, speedRoll: real): (a: Ant)
    ensures a.kind == t && a.x == x && a.y == y
    ensures a.level == 1 && a.xp == 0.0 && a.kills == 0 && a.energy == 100.0
    ensures a.health == a.maxHealth == NewbornHealth(t)
    ensures a.job == Idle && !a.carrying
    ensures a.strength == (if t == Soldier then 3.0 else if t == SuperSoldier then 8.0 else 1.0)
    ensures a.speed == (if t == SuperSoldier then 1.3 else 0.8 + speedRoll * 0.4)
    ensures 0.0 <= speedRoll < 1.0 ==> 0.8 <= a.speed <= 1.3
  {
    var strength := match t case Soldier => 3.0 case SuperSoldier => 8.0 case _ => 1.0;
    var speed := if t == SuperSoldier then 1.3 else 0.8 + speedRoll * 0.4;
    Ant(t, x, y, Idle, false, NewbornHealth(t), NewbornHealth(t), 100.0, speed, strength, 1, 0.0, 0)
  }

  /** War cry: combat ants get full energy and start attacking; other ants are untouched. */
  function Enrage(a: Ant): (r: Ant)
    ensures IsCombatant(a.kind) ==> r == a.(energy := 100.0, job := Attacking)
    ensures !IsCombatant(a.kind) ==> r == a
  {
    if IsCombatant(a.kind) then a.(energy := 100.0, job := Attacking) else a
  }

  // --------------------------------------------------- ant pre-checks

  /** Fraction of maxHealth below which an ant flees. */
  function FleeFraction(t: AntType): real {
    if t == Worker then 0.25 else 0.1
  }

  /** The flee check: a non-Queen ant below its flee fraction switches to Fleeing. */
  function Flee(a: Ant): (r: Ant)
    ensures r.job == Fleeing <==> a.job == Fleeing || (a.kind != Queen && a.health < a.maxHealth * FleeFraction(a.kind))
    ensures r == a.(job := r.job)
    ensures a.kind == Queen ==> r == a
    ensures !(a.kind != Queen && a.health < a.maxHealth * FleeFraction(a.kind)) ==> r == a
  {
    if a.health < a.maxHealth * FleeFraction(a.kind) && a.kind != Queen then a.(job := Fleeing) else a
  }

  /** An ant sleeps this tick when no war is on (at most 5 enemies), it is not fleeing, and it is out of energy or a Worker at night. */
  predicate SleepGate(a: Ant, enemyCount: int, night: bool) {
    enemyCount <= 5 && a.job != Fleeing && (a.energy <= 0.0 || (night && a.kind == Worker))
  }

  /**
   * One tick of sleep: energy +0.5, health +0.1 (not limited by maxHealth),
   * and the ant wakes (Idle) once its energy reaches 100.
   */
  function SleepStep(a: Ant): (r: Ant)
    ensures r.energy == a.energy + 0.5 && r.health == a.health + 0.1
    ensures r.job == (if a.energy + 0.5 >= 100.0 then Idle else Sleeping)
    ensures r == a.(energy := r.energy, health := r.health, job := r.job)
  {
    var energy := a.energy + 0.5;
    a.(job := if energy >= 100.0 then Idle else Sleeping, energy := energy, health := a.health + 0.1)
  }

  /** Sleep is not limited by maxHealth or by the energy ceiling of 100. */
  lemma SleepOvershoots()
    ensures var a := Ant(Worker, 60, 35, Idle, false, 40.0, 40.0, 100.0, 1.0, 1.0, 1, 0.0, 0);
      SleepGate(a, 0, true) && SleepStep(a).health > SleepStep(a).maxHealth && SleepStep(a).energy > 100.0
  {
  }

  // ---------------------------------------------------------------- Queen

  /** Queen's aura is a Chebyshev square: strictly fewer than 8 tiles on both axes. */
  predicate InAura(queen: Ant, other: Ant) {
    -8 < other.x - queen.x < 8 && -8 < other.y - queen.y < 8
  }

  /** The aura heals a wounded ant by a flat 1.0, which may overshoot maxHealth by less than 1. */
  function AuraHeal(a: Ant): (r: Ant)
    ensures r == a.(health := r.health)
    ensures a.health < a.maxHealth ==> r.health == a.health + 1.0 && r.health < a.maxHealth + 1.0
    ensures a.health >= a.maxHealth ==> r == a
    ensures a.health <= a.maxHealth ==> r.health >= a.health
  {
    if a.health < a.maxHealth then a.(health := a.health + 1.0) else a
  }

  /** Auto-breed: the species a Queen spawns from a roll in [0, 1). */
  function BreedKind(roll: real): AntType {
    if roll > 0.8 then Soldier else Worker
  }

  /** The auto-breed gate, checked before the 5% roll. */
  predicate CanBreed(autoBreed: bool, food: int, antCount: int) {
    autoBreed && food > 50 && antCount < MaxAnts
  }

  // --------------------------------------------------------------- combat

  /** How far a soldier can strike, growing with level. */
  function Reach(level: int): (r: real)
    ensures level >= 1 ==> r >= 1.15
  {
    1.0 + level as real * LevelScaler
  }

  /** Each level strictly extends the reach. */
  lemma ReachMonotone(l1: int, l2: int)
    requires l1 < l2
    ensures Reach(l1) < Reach(l2)
  {
  }

  function Damage(strength: real): real {
    2.0 * strength
  }

  /** Both coordinates of the enemy lie within reach of the soldier. */
  predicate WithinReach(a: Ant, ex: real, ey: real) {
    Abs(ex - a.x as real) <= Reach(a.level) && Abs(ey - a.y as real) <= Reach(a.level)
  }

  /** A kill's feast: 50 health, capped at maxHealth. */
  function Feast(a: Ant): (h: real)
    ensures h <= a.maxHealth
    ensures a.health <= a.maxHealth ==> h >= a.health
    ensures h == a.health + 50.0 || h == a.maxHealth
    ensures h <= a.health + 50.0
  {
    if a.health + 50.0 < a.maxHealth then a.health + 50.0 else a.maxHealth
  }

  /**
   * A soldier's blow: the enemy loses twice the soldier's strength; the
   * soldier gains 2 experience and, if the enemy is left at 0 health or
   * less, a kill, 50 health (up to maxHealth) and 50 more experience.
   */
  function Strike(a: Ant, e: Enemy): (r: (Ant, Enemy))
    requires a.level >= 1
    ensures r.1 == e.(health := e.health - Damage(a.strength))
    ensures r.0.kills == (if r.1.health <= 0.0 then a.kills + 1 else a.kills)
    ensures r.1.health > 0.0 ==> r.0 == GainXp(a, 2.0)
    ensures r.1.health <= 0.0 ==>
      var hit := GainXp(a, 2.0);
      r.0 == GainXp(hit.(kills := hit.kills + 1, health := Feast(hit)), 50.0)
    ensures r.0.level >= a.level && r.0.strength >= a.strength
    ensures r.0.kind == a.kind && r.0.x == a.x && r.0.y == a.y
  {
    var hit := e.(health := e.health - Damage(a.strength));
    var a1 := GainXp(a, 2.0);
    if hit.health <= 0.0 then
      var a2 := a1.(kills := a1.kills + 1, health := Feast(a1));
      (GainXp(a2, 50.0), hit)
    else
      (a1, hit)
  }

  // ------------------------------------------------------------ movement

  /** Each axis of a requested direction is reduced to -1, 0 or 1. */
  function Quantise(d: int): (q: int)
    ensures q in {-1, 0, 1}
    ensures q == 0 <==> d == 0
    ensures q * d >= 0
    ensures -1 <= d <= 1 ==> q == d
  {
    if d > 0 then 1 else if d < 0 then -1 else 0
  }

  /** Soldiers and SuperSoldiers above level 5 crush obstacles as they walk. */
  predicate CanCrush(a: Ant) {
    a.level > 5 && IsCombatant(a.kind)
  }

  /** Crushing always breaks Dirt and breaks Defense when the roll is below 0.2. */
  predicate Crushes(a: Ant, c: Cell, crushRoll: real) {
    CanCrush(a) && (c == Dirt || (c == Defense && crushRoll < 0.2))
  }

  predicate IsHardBlock(c: Cell) {
    c == Rock || c == Defense
  }

  predicate IsSoftBlock(c: Cell) {
    c == Dirt || c == Food || c == Gem
  }

  /** Tiles an ant can walk into. */
  predicate IsOpen(c: Cell) {
    c == Air || c == Nest || c == Storage || c == Nursery
  }

  /** Open, hard and soft tiles partition every tile kind. */
  lemma PassabilityPartition(c: Cell)
    ensures IsOpen(c) || IsHardBlock(c) || IsSoftBlock(c)
    ensures !(IsOpen(c) && IsHardBlock(c)) && !(IsOpen(c) && IsSoftBlock(c)) && !(IsHardBlock(c) && IsSoftBlock(c))
  {
  }

  /** The move is blocked: a hard block, or a soft block the ant is not mining. */
  predicate Blocked(a: Ant, c: Cell) {
    IsHardBlock(c) || (IsSoftBlock(c) && a.job != Mining)
  }

  /**
   * moveAnt decides softness before the slide and reuses it after. That is
   * harmless: when a blocked move slid and mining is then allowed, the tile
   * actually reached is itself soft.
   */
  lemma StaleSoftHarmless(a: Ant, first: Cell, second: Cell)
    requires Blocked(a, first) && IsSoftBlock(first)
    requires CanMine(a, second)
    ensures IsSoftBlock(second)
  {
  }

  /** Mining is allowed for an ant on the Mining job, or for any non-Queen at a Food or Gem tile. */
  predicate CanMine(a: Ant, c: Cell) {
    a.job == Mining || (a.kind != Queen && (c == Food || c == Gem))
  }

  /** The roll a mining attempt must exceed. */
  function MineChance(a: Ant): (p: real)
    ensures a.kind == SuperSoldier ==> p == 0.9
    ensures a.kind != SuperSoldier && a.strength >= 0.0 ==> p <= 0.7
  {
    if a.kind == SuperSoldier then 0.9 else 0.7 - a.strength * 0.05
  }

  /** Resource change a successful mine or a player's dig produces. */
  datatype Gain = Gain(food: int, materials: int, score: real)

  /**
   * The effect of mining a soft tile (before the tile is cleared and the
   * attempt's energy is paid): a Gem gives 500 score and 50 experience,
   * Dirt one material, one score and 1 experience; Food heals a wounded ant
   * or a combat ant by 30 (up to maxHealth), refills its energy and gives 10
   * experience, and otherwise lets a Worker that is not yet carrying pick it
   * up and return.
   */
  function MineEffect(a: Ant, c: Cell): (r: (Ant, Gain))
    requires a.level >= 1
    ensures r.1.food == 0
    ensures c == Gem ==> r.1 == Gain(0, 0, 500.0) && r.0 == GainXp(a, 50.0)
    ensures c == Dirt ==> r.1 == Gain(0, 1, 1.0) && r.0 == GainXp(a, 1.0)
    ensures c == Food ==> r.1 == Gain(0, 0, 0.0)
    ensures c == Food && (a.health < a.maxHealth || IsCombatant(a.kind)) ==>
      var healed := a.(health := if a.health + 30.0 < a.maxHealth then a.health + 30.0 else a.maxHealth, energy := 100.0);
      r.0 == GainXp(healed, 10.0)
    ensures c == Food && !(a.health < a.maxHealth || IsCombatant(a.kind)) ==>
      r.0 == if a.kind == Worker && !a.carrying then a.(carrying := true, job := Returning) else a
    ensures !IsSoftBlock(c) ==> r == (a, Gain(0, 0, 0.0))
    ensures r.0.level >= a.level && r.0.x == a.x && r.0.y == a.y && r.0.kind == a.kind
    ensures r.0.strength >= a.strength
  {
    match c
    case Gem => (GainXp(a, 50.0), Gain(0, 0, 500.0))
    case Dirt => (GainXp(a, 1.0), Gain(0, 1, 1.0))
    case Food =>
      if a.health < a.maxHealth || IsCombatant(a.kind) then
        var healed := a.(health := if a.health + 30.0 < a.maxHealth then a.health + 30.0 else a.maxHealth, energy := 100.0);
        (GainXp(healed, 10.0), Gain(0, 0, 0.0))
      else if a.kind == Worker && !a.carrying then
        (a.(carrying := true, job := Returning), Gain(0, 0, 0.0))
      else
        (a, Gain(0, 0, 0.0))
    case _ => (a, Gain(0, 0, 0.0))
  }

  /** The counters after a gain. */
  function Credit(res: Resources, g: Gain): Resources {
    res.(food := res.food + g.food, materials := res.materials + g.materials, score := res.score + g.score)
  }

  /** A player's dig: Dirt, Food and Gem give one material; Food also gives 5 food and a Gem 500 score. */
  function DigGain(c: Cell): (g: Gain)
    ensures IsSoftBlock(c) ==> g.materials == 1
    ensures !IsSoftBlock(c) ==> g == Gain(0, 0, 0.0)
    ensures g.food == (if c == Food then 5 else 0)
    ensures g.score == (if c == Gem then 500.0 else 0.0)
  {
    match c
    case Dirt => Gain(0, 1, 0.0)
    case Food => Gain(5, 1, 0.0)
    case Gem => Gain(0, 1, 500.0)
    case _ => Gain(0, 0, 0.0)
  }

  // ------------------------------------------------------------- economy

  /** Storage capacity: 1000 plus 500 per Storage tile. */
  function MaxFoodFor(storageCount: nat): (m: int)
    ensures m >= 1000
  {
    1000 + storageCount * 500
  }

  /**
   * A Worker's deposit: 5 food and 5 score, capacity recomputed from the
   * Storage tile count, and food then clamped to that capacity.
   */
  function Deposit(res: Resources, storageCount: nat): (r: Resources)
    ensures r.maxFood == MaxFoodFor(storageCount)
    ensures r.score == res.score + 5.0
    ensures r.food <= r.maxFood
    ensures r.food == (if res.food + 5 <= r.maxFood then res.food + 5 else r.maxFood)
    ensures res.food >= 0 ==> r.food >= 0
    ensures r.materials == res.materials && r.population == res.population
  {
    var maxFood := MaxFoodFor(storageCount);
    var food := res.food + 5;
    res.(food := if food > maxFood then maxFood else food, score := res.score + 5.0, maxFood := maxFood)
  }

  /** The clamp can take food away: a stock above the new capacity is cut down to it. */
  lemma DepositCanLoseFood()
    ensures Deposit(Resources(2000, 0, 1, 1000, 0.0), 0).food == 1000
  {
  }

  // -------------------------------------------------------------- enemies

  /** Tiles per tick an enemy of each species advances toward its target. */
  function Pace(k: EnemyType): real {
    match k
    case Wasp => 0.4
    case Termite => 0.1
    case _ => 0.15
  }

  /**
   * An enemy's move. With a target at (tx, ty) it advances Pace tiles on each
   * axis toward it; without one a Wasp drifts by (wx - 0.5, wy - 0.5), a
   * Termite waits, and the others sink by 0.05 while above row 35 and drift
   * sideways by (wx - 0.5) * 0.2.
   */
  function EnemyMove(e: Enemy, target: Option<Pos>, wx: real, wy: real): (r: Enemy)
    ensures r.kind == e.kind && r.health == e.health && r.maxHealth == e.maxHealth
    ensures target.Some? ==>
      var tx, ty := target.value.x as real, target.value.y as real;
      && (r.x - e.x) * (tx - e.x) >= 0.0 && (r.y - e.y) * (ty - e.y) >= 0.0
      && Abs(r.x - e.x) == (if tx == e.x then 0.0 else Pace(e.kind))
      && Abs(r.y - e.y) == (if ty == e.y then 0.0 else Pace(e.kind))
    ensures target.None? && e.kind == Termite ==> r == e
    ensures target.None? && e.kind == Wasp ==> r.x == e.x + (wx - 0.5) && r.y == e.y + (wy - 0.5)
    ensures target.None? && e.kind != Wasp && e.kind != Termite ==>
      r.x == e.x + (wx - 0.5) * 0.2 && r.y == (if e.y < 35.0 then e.y + 0.05 else e.y)
  {
    match target
    case Some(t) =>
      var sx, sy := Sign(t.x as real - e.x), Sign(t.y as real - e.y);
      e.(x := e.x + sx as real * Pace(e.kind), y := e.y + sy as real * Pace(e.kind))
    case None =>
      match e.kind
      case Wasp => e.(x := e.x + (wx - 0.5), y := e.y + (wy - 0.5))
      case Termite => e
      case _ => e.(x := e.x + (wx - 0.5) * 0.2, y := if e.y < 35.0 then e.y + 0.05 else e.y)
  }

  /** With draws in [0, 1] an untargeted enemy moves at most half a tile on each axis. */
  lemma WanderBound(e: Enemy, wx: real, wy: real)
    requires 0.0 <= wx <= 1.0 && 0.0 <= wy <= 1.0
    ensures var r := EnemyMove(e, None, wx, wy); Abs(r.x - e.x) <= 0.5 && Abs(r.y - e.y) <= 0.5
  {
  }

  /** Half-width of the square of Food a dead enemy leaves: 3 for a Beetle, 2 otherwise. */
  function MeatRadius(k: EnemyType): (r: int)
    ensures r == 2 || r == 3
    ensures r == 3 <==> k == Beetle
  {
    if k == Beetle then 3 else 2
  }

  /** The tile (x, y) lies in the Food square of a dead enemy, around its floored position. */
  predicate Covers(e: Enemy, x: int, y: int) {
    var cx, cy, r := e.x.Floor, e.y.Floor, MeatRadius(e.kind);
    cx - r <= x <= cx + r && cy - r <= y <= cy + r
  }
}
