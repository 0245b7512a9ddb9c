/**
 * The simulation engine (hooks/useGameEngine.ts): the world aggregate, the
 * player commands (spawnAnt, interactCell, spawnEnemy, addResources), the
 * per-ant update (moveAnt, updateAnt) and the tick (gameLoop).
 *
 * Every Math.random() draw the source makes is an explicit parameter, and so
 * is the result of each spiral tile search.
 */
module Engine {
  import opened Types
  import opened Progression
  import opened Rules
  import opened Grid
  import opened Pheromones
  import opened Search
  import opened Lists
  import opened Terrain
  import opened Movement

  /**
   * The draws and search results one call of updateAnt uses: the move, the
   * Queen's breeding rolls, the idle wander, and the nearest Storage-or-Nest,
   * Food and Gem tiles the spiral search reports.
   */
  datatype AntDraws = AntDraws(
    move: MoveDraws,
    breedRoll: real, breedKindRoll: real, breedSpeedRoll: real,
    wanderRoll: real, wanderX: int, wanderY: int,
    storage: Option<Pos>, food: Option<Pos>, gem: Option<Pos>)
  {
    predicate Wellformed() {
      move.Wellformed() && -1 <= wanderX <= 1 && -1 <= wanderY <= 1
    }
  }

  /** An enemy's two wander draws. */
  datatype EnemyDraws = EnemyDraws(wx: real, wy: real)

  /** The draws of one tick: fungal growth, automatic spawning, and per-ant and per-enemy draws by list index. */
  datatype StepDraws = StepDraws(
    fungalRoll: real, fungalX: int, fungalY: int,
    spawnRoll: real, kindRoll: real, spawnColumn: int,
    ant: nat -> AntDraws, enemy: nat -> EnemyDraws)
  {
    ghost predicate Wellformed() {
      InBounds(fungalX, fungalY) && forall k: nat :: ant(k).Wellformed()
    }

    /** Fungal growth turns the drawn tile, holding c, into Food: the roll is below 0.2, c is Air or Dirt, and the tile lies below the sky band. */
    predicate Sprouts(c: Cell) {
      fungalRoll < 0.2 && (c == Air || c == Dirt) && fungalY > SurfaceDepth
    }
  }

  /** Structural facts every ant keeps: on the grid, at level 1 or more, with non-negative strength. */
  predicate AntOk(a: Ant) {
    InBounds(a.x, a.y) && a.level >= 1 && a.strength >= 0.0
  }

  predicate IsAlive(e: Enemy) {
    e.health > 0.0
  }

  predicate IsDead(e: Enemy) {
    e.health <= 0.0
  }

  /** An ant survives the prune at the start of a tick while its health is positive. */
  predicate AntAlive(a: Ant) {
    a.health > 0.0
  }

  /** (x, y) lies in the Food square of some dead enemy of es. */
  predicate Buried(es: seq<Enemy>, x: int, y: int)
    decreases |es|
  {
    |es| > 0 && (Buried(es[..|es| - 1], x, y) || (IsDead(es[|es| - 1]) && Covers(es[|es| - 1], x, y)))
  }

  /** A tile is buried under a list extended by one enemy exactly when it is buried under the list or in that enemy's square, if it is dead. */
  lemma BuriedSnoc(es: seq<Enemy>, e: Enemy, x: int, y: int)
    ensures Buried(es + [e], x, y) <==> Buried(es, x, y) || (IsDead(e) && Covers(e, x, y))
  {
    assert (es + [e])[..|es|] == es;
  }

  /** Buried is the existential over the list: some dead enemy of es covers (x, y). */
  lemma {:induction false} BuriedExists(es: seq<Enemy>, x: int, y: int)
    ensures Buried(es, x, y) <==> exists m :: 0 <= m < |es| && IsDead(es[m]) && Covers(es[m], x, y)
    decreases |es|
  {
    if |es| > 0 {
      var init := es[..|es| - 1];
      BuriedExists(init, x, y);
      if exists m :: 0 <= m < |es| && IsDead(es[m]) && Covers(es[m], x, y) {
        var m :| 0 <= m < |es| && IsDead(es[m]) && Covers(es[m], x, y);
        if m < |es| - 1 {
          assert init[m] == es[m];
        }
      }
      if Buried(init, x, y) {
        var m :| 0 <= m < |init| && IsDead(init[m]) && Covers(init[m], x, y);
        assert es[m] == init[m];
      }
    }
  }

  /** The tile an enemy heads for: the tile of the ant it targets, if any. */
  function Goal(ants: seq<Ant>, e: Enemy): (g: Option<Pos>)
    ensures g.None? <==> forall j :: 0 <= j < |ants| ==> AntDist(ants[j], e) >= TargetRange
    ensures g.Some? ==> exists j ::
      && 0 <= j < |ants| && g.value == Pos(ants[j].x, ants[j].y) && AntDist(ants[j], e) < TargetRange
      && (forall i :: 0 <= i < |ants| ==> AntDist(ants[j], e) <= AntDist(ants[i], e))
      && (forall i :: 0 <= i < j ==> AntDist(ants[j], e) < AntDist(ants[i], e))
  {
    ScanAntsNearest(ants, e, |ants|);
    var t := Target(ants, e).0;
    if t.Some? then Some(Pos(ants[t.value].x, ants[t.value].y)) else None
  }

  /** An enemy after its move toward its goal (or its wander, with the draws dr). */
  function Pursue(ants: seq<Ant>, e: Enemy, dr: EnemyDraws): Enemy {
    EnemyMove(e, Goal(ants, e), dr.wx, dr.wy)
  }

  /**
   * The ant enemy e bites: its target, when that was closer than 2 before
   * the move. The bitten ant is the first nearest one, and no ant is closer.
   */
  function Bite(ants: seq<Ant>, e: Enemy): (b: Option<nat>)
    ensures b.Some? ==>
      && b.value < |ants| && AntDist(ants[b.value], e) < 2.0
      && (forall j :: 0 <= j < |ants| ==> AntDist(ants[b.value], e) <= AntDist(ants[j], e))
      && (forall j :: 0 <= j < b.value ==> AntDist(ants[b.value], e) < AntDist(ants[j], e))
    ensures b.None? <==> forall j :: 0 <= j < |ants| ==> AntDist(ants[j], e) >= 2.0
  {
    ScanAntsNearest(ants, e, |ants|);
    var t := Target(ants, e);
    if t.0.Some? && t.1 < 2.0 then t.0 else None
  }

  /** How many enemies of es bite ant m. */
  function Bites(ants: seq<Ant>, es: seq<Enemy>, m: nat): (n: nat)
    ensures n <= |es|
    decreases |es|
  {
    if |es| == 0 then 0
    else Bites(ants, es[..|es| - 1], m) + (if Bite(ants, es[|es| - 1]) == Some(m) then 1 else 0)
  }

  /** One more enemy adds one bite to ant m exactly when it bites m. */
  lemma BitesSnoc(ants: seq<Ant>, es: seq<Enemy>, e: Enemy, m: nat)
    ensures Bites(ants, es + [e], m) == Bites(ants, es, m) + (if Bite(ants, e) == Some(m) then 1 else 0)
  {
    assert (es + [e])[..|es|] == es;
  }

  /** next is cur after enemy e's bite: the ant it bites loses 5 health, nothing else changes. */
  predicate BiteStep(cur: seq<Ant>, next: seq<Ant>, e: Enemy) {
    && |next| == |cur|
    && forall m :: 0 <= m < |cur| ==>
      next[m] == cur[m].(health := cur[m].health - if Bite(cur, e) == Some(m) then 5.0 else 0.0)
  }

  /** cur is a0 after every enemy of es has bitten: each ant has lost 5 health per bite. */
  predicate Bitten(a0: seq<Ant>, cur: seq<Ant>, es: seq<Enemy>) {
    && |cur| == |a0|
    && forall m :: 0 <= m < |cur| ==>
      cur[m] == a0[m].(health := a0[m].health - 5.0 * Bites(a0, es, m) as real)
  }

  /**
   * Bites accumulate: one more enemy biting after es is the same as es plus
   * that enemy biting from the original ants, because bites change no position.
   */
  lemma {:induction false} BittenSnoc(a0: seq<Ant>, cur: seq<Ant>, next: seq<Ant>, es: seq<Enemy>, e: Enemy)
    requires Bitten(a0, cur, es) && BiteStep(cur, next, e)
    ensures Bitten(a0, next, es + [e])
  {
    Positional(cur, a0, e);
    forall m | 0 <= m < |next|
      ensures next[m] == a0[m].(health := a0[m].health - 5.0 * Bites(a0, es + [e], m) as real)
    {
      BitesSnoc(a0, es, e, m);
    }
  }

  /** Enemy e digs tile (i, j): a Termite standing on it, at its floored position. */
  predicate Digs(e: Enemy, i: int, j: int) {
    e.kind == Termite && e.x.Floor == i && e.y.Floor == j
  }

  /** Some Termite of es stands on tile (i, j). */
  predicate Dug(es: seq<Enemy>, i: int, j: int)
    decreases |es|
  {
    |es| > 0 && (Dug(es[..|es| - 1], i, j) || Digs(es[|es| - 1], i, j))
  }

  /** A tile is dug under a list extended by one enemy exactly when it was dug or that enemy digs it. */
  lemma DugSnoc(es: seq<Enemy>, e: Enemy, i: int, j: int)
    ensures Dug(es + [e], i, j) <==> Dug(es, i, j) || Digs(e, i, j)
  {
    assert (es + [e])[..|es|] == es;
  }

  /**
   * The enemies' choices read only the ants' positions: two ant lists that
   * agree on every position give every enemy the same goal and the same bite.
   */
  lemma Positional(a: seq<Ant>, b: seq<Ant>, e: Enemy)
    requires |a| == |b|
    requires forall j :: 0 <= j < |a| ==> a[j].x == b[j].x && a[j].y == b[j].y
    ensures Goal(a, e) == Goal(b, e) && Bite(a, e) == Bite(b, e)
  {
    ScanAntsPositional(a, b, e, |a|);
  }

  /** A Termite clears the Dirt tile under its floored position; any other enemy digs nothing. */
  method Burrow(g: array2<Cell>, e: Enemy)
    requires IsGrid(g)
    modifies g
    ensures forall j, i :: 0 <= j < Height && 0 <= i < Width ==>
      g[j, i] == if Digs(e, i, j) && old(g[j, i]) == Dirt then Air else old(g[j, i])
  {
    if e.kind == Termite {
      var tx, ty := e.x.Floor, e.y.Floor;
      if GetCell(g, tx, ty) == Dirt {
        SetCell(g, tx, ty, Air);
      }
    }
  }

  // ------------------------------------------------------- turn decisions

  /** The direction moveAnt is asked for by an ant heading for the tile (tx, ty). */
  function Toward(a: Ant, tx: int, ty: int): Pos {
    Pos(Quantise(tx - a.x), Quantise(ty - a.y))
  }

  /** The direction a soldier is asked to step toward an enemy at (ex, ey): the signs of the offsets. */
  function Facing(a: Ant, ex: real, ey: real): Pos {
    Pos(Sign(ex - a.x as real), Sign(ey - a.y as real))
  }

  /** The enemy a soldier at b strikes: the first enemy standing at (ex, ey), provided that position is within its reach. */
  function Blow(b: Ant, es: seq<Enemy>, ex: real, ey: real): (h: Option<nat>)
    ensures h.Some? ==> h.value < |es| && WithinReach(b, ex, ey) && es[h.value].x == ex && es[h.value].y == ey
    ensures h.None? <==> !WithinReach(b, ex, ey) || forall j :: 0 <= j < |es| ==> es[j].x != ex || es[j].y != ey
  {
    if WithinReach(b, ex, ey) then FirstEnemyAt(es, ex, ey) else None
  }

  /** Where a carrying Worker delivers: the reported Storage or Nest tile, or the default nest tile (60, 35). */
  function Depot(d: AntDraws): Pos {
    match d.storage
    case Some(p) => p
    case None => Pos(NestX, NestY)
  }

  /** A Worker at b delivers to the depot when it is less than 2 tiles from it on both axes. */
  predicate Delivers(b: Ant, depot: Pos) {
    -2 < depot.x - b.x < 2 && -2 < depot.y - b.y < 2
  }

  /** The deposit's effect on the Worker: it puts its load down and gains 5 experience. */
  function Unload(b: Ant): (r: Ant)
    requires b.level >= 1
    ensures !r.carrying && r.kind == b.kind && r.x == b.x && r.y == b.y && r.level >= b.level
    ensures r == GainXp(b, 5.0).(carrying := false)
  {
    GainXp(b.(carrying := false), 5.0)
  }

  /**
   * A patrolling soldier's move, given the gradient scan's best intensity and
   * offset: up the gradient when the best is above 0.05, else a wander when
   * the wander roll is below 0.2, else no move.
   */
  function PatrolStep(best: real, dir: Pos, d: AntDraws): (v: Option<Pos>)
    ensures best > 0.05 ==> v == Some(dir)
    ensures best <= 0.05 ==> v == if d.wanderRoll < 0.2 then Some(Pos(d.wanderX, d.wanderY)) else None
  {
    if best > 0.05 then Some(dir)
    else if d.wanderRoll < 0.2 then Some(Pos(d.wanderX, d.wanderY))
    else None
  }

  /** A Gem the foraging Worker heads for: reported, with no Food reported, and less than 8 columns away. */
  predicate SeeksGem(a: Ant, d: AntDraws) {
    d.food.None? && d.gem.Some? && -8 < d.gem.value.x - a.x < 8
  }

  /**
   * A Worker's forage move: the ant as it enters moveAnt and the direction.
   * Toward reported Food, on the Mining job once within one tile of it; else
   * toward a Gem it seeks; else, on a wander roll below 0.4, a wander that
   * always goes down while in the sky band; else no move.
   */
  function ForageStep(a: Ant, d: AntDraws): (r: Option<(Ant, Pos)>)
    ensures d.food.Some? ==> r.Some? && r.value.1 == Toward(a, d.food.value.x, d.food.value.y)
    ensures d.food.Some? ==> r.value.0 == if -1 <= d.food.value.x - a.x <= 1 && -1 <= d.food.value.y - a.y <= 1 then a.(job := Mining) else a
    ensures SeeksGem(a, d) ==> r == Some((a, Toward(a, d.gem.value.x, d.gem.value.y)))
    ensures d.food.None? && !SeeksGem(a, d) ==>
      r == if d.wanderRoll < 0.4 then Some((a, Pos(d.wanderX, if a.y < SurfaceDepth then 1 else d.wanderY))) else None
    ensures r.Some? ==> r.value.0 == a.(job := r.value.0.job)
  {
    match d.food
    case Some(f) =>
      var near := -1 <= f.x - a.x <= 1 && -1 <= f.y - a.y <= 1;
      Some((if near then a.(job := Mining) else a, Toward(a, f.x, f.y)))
    case None =>
      if SeeksGem(a, d) then Some((a, Toward(a, d.gem.value.x, d.gem.value.y)))
      else if d.wanderRoll < 0.4 then Some((a, Pos(d.wanderX, if a.y < SurfaceDepth then 1 else d.wanderY)))
      else None
  }

  class World {
    const grid: array2<Cell>
    const pher: array2<real>
    var ants: seq<Ant>
    var enemies: seq<Enemy>
    var res: Resources
    var time: int
    var threat: int
    var autoBreed: bool

    ghost predicate Valid()
      reads this, grid, pher
    {
      && IsGrid(grid) && IsGrid(pher)
      && 0 <= time < DayLength
      && 0 <= threat <= 100
      && res.score >= 0.0 && res.population >= 0
      && (forall k :: 0 <= k < |ants| ==> AntOk(ants[k]))
      && (forall j, i :: 0 <= j < Height && 0 <= i < Width ==> 0.0 <= pher[j, i] <= 1.0)
    }

    /** The resource invariant: no negative food or materials. */
    ghost predicate Solvent()
      reads this
    {
      res.food >= 0 && res.materials >= 0
    }

    /**
     * The grid after a move of ant a in direction dir with draws m, compared
     * with the grid before it: exactly the tiles the move clears (a crushed
     * tile or a mined one) are Air, and every other tile is as it was.
     */
    twostate predicate Excavated(a: Ant, dir: Pos, m: MoveDraws)
      requires IsGrid(grid)
      reads grid
    {
      forall j, i :: 0 <= j < Height && 0 <= i < Width ==>
        grid[j, i] == if old(Cleared(grid, a, dir.x, dir.y, m, i, j)) then Air else old(grid[j, i])
    }

    /**
     * The world after soldier k's fight (see Fight): it steps toward the
     * enemy position (ex, ey) and, when that position is then within its
     * reach, strikes the first enemy standing there.
     */
    twostate predicate Fought(k: nat, a: Ant, ex: real, ey: real, m: MoveDraws)
      requires IsGrid(grid) && old(k < |ants|) && a.level >= 1
      reads this, grid
    {
      var dir := Facing(a, ex, ey);
      var b := old(Moved(grid, a, dir.x, dir.y, m));
      && Excavated(a, dir, m)
      && res == Credit(old(res), old(MoveGain(grid, a, dir.x, dir.y, m)))
      && match Blow(b, old(enemies), ex, ey)
         case Some(h) =>
           ants == old(ants)[k := Strike(b, old(enemies[h])).0] && enemies == old(enemies)[h := Strike(b, old(enemies[h])).1]
         case None => ants == old(ants)[k := b] && enemies == old(enemies)
    }

    /**
     * The world after soldier k's patrol (see Patrol): best and dir are the
     * gradient scan around it, and it takes PatrolStep's move, if any.
     */
    twostate predicate Patrolled(k: nat, a: Ant, d: AntDraws, best: real, dir: Pos)
      requires IsGrid(grid) && IsGrid(pher) && old(k < |ants|) && a.level >= 1
      reads this, grid, pher
    {
      && IsGradient(pher, a.x, a.y, best, dir)
      && enemies == old(enemies)
      && match PatrolStep(best, dir, d)
         case Some(v) =>
           && ants == old(ants)[k := old(Moved(grid, a, v.x, v.y, d.move))]
           && res == Credit(old(res), old(MoveGain(grid, a, v.x, v.y, d.move)))
           && Excavated(a, v, d.move)
         case None => ants == old(ants)[k := a] && res == old(res) && unchanged(grid)
    }

    /**
     * The world after soldier k's turn (see SoldierTurn): near is the
     * nearest enemy in sight from the soldier's tile; it fights that enemy,
     * or, when there is none, patrols with the gradient scan's outcome best
     * and dir.
     */
    twostate predicate Soldiered(k: nat, a: Ant, d: AntDraws, new near: Option<nat>, best: real, dir: Pos)
      requires IsGrid(grid) && IsGrid(pher) && old(k < |ants|) && a.level >= 1
      reads this, grid, pher
    {
      && IsNearestEnemy(old(enemies), a.x, a.y, near)
      && (near.Some? ==> Fought(k, a, old(enemies[near.value]).x, old(enemies[near.value]).y, d.move))
      && (near.None? ==> Patrolled(k, a, d, best, dir))
    }

    /**
     * The world after Queen k's turn (see QueenTurn), where a is the Queen
     * as she enters it: when auto-breed allows and the breed roll is below
     * 0.05 the bred kind's price is taken and, if there is a Queen, the
     * newborn is appended at the first Queen's tile; then every other ant
     * present before gets the aura heal when it is in her aura.
     */
    twostate predicate Reigned(k: nat, a: Ant, d: AntDraws)
      requires old(k < |ants|)
      reads this
    {
      var before := old(ants)[k := a];
      var breeds := CanBreed(autoBreed, old(res.food), |before|) && d.breedRoll < 0.05;
      var kind := BreedKind(d.breedKindRoll);
      && res == (if breeds then old(res).(food := old(res.food) - AntFoodCost(kind)) else old(res))
      && |ants| == |before| + (if breeds && FirstQueen(before).Some? then 1 else 0)
      && (|ants| > |before| ==>
            var q := before[FirstQueen(before).value];
            ants[|before|] == Newborn(kind, q.x, q.y, d.breedSpeedRoll))
      && forall j :: 0 <= j < |before| ==>
           ants[j] == if j != k && InAura(a, before[j]) then AuraHeal(before[j]) else before[j]
    }

    /**
     * The world after carrying Worker k's turn (see Haul): it steps toward
     * the depot and, once within 2 tiles of it on both axes, unloads and
     * deposits, with the capacity counted on the grid after the step.
     */
    twostate predicate Hauled(k: nat, a: Ant, d: AntDraws)
      requires IsGrid(grid) && old(k < |ants|) && a.level >= 1
      reads this, grid
    {
      var dir := Toward(a, Depot(d).x, Depot(d).y);
      var b := old(Moved(grid, a, dir.x, dir.y, d.move));
      var r := Credit(old(res), old(MoveGain(grid, a, dir.x, dir.y, d.move)));
      && Excavated(a, dir, d.move)
      && if Delivers(b, Depot(d)) then ants == old(ants)[k := Unload(b)] && res == Deposit(r, CountKind(grid, Storage))
         else ants == old(ants)[k := b] && res == r
    }

    /**
     * The world after unloaded Worker k's turn (see Forage): ForageStep's
     * move, if any, and the switch to Mining when it heads for a Gem.
     */
    twostate predicate Foraged(k: nat, a: Ant, d: AntDraws)
      requires IsGrid(grid) && old(k < |ants|) && a.level >= 1
      reads this, grid
    {
      match ForageStep(a, d)
      case None => ants == old(ants)[k := a] && res == old(res) && unchanged(grid)
      case Some(step) =>
        var s, dir := step.0, step.1;
        var b := old(Moved(grid, s, dir.x, dir.y, d.move));
        && ants == old(ants)[k := if SeeksGem(a, d) then b.(job := Mining) else b]
        && res == Credit(old(res), old(MoveGain(grid, s, dir.x, dir.y, d.move)))
        && Excavated(s, dir, d.move)
    }

    /**
     * The world after ant k's species turn, where a is the ant as it enters
     * the turn: the Queen's (which leaves the enemies and the grid alone), a
     * soldier's, or a Worker's (hauling when it carries, foraging otherwise,
     * and leaving the enemies alone).
     */
    twostate predicate Acted(k: nat, a: Ant, d: AntDraws)
      requires IsGrid(grid) && IsGrid(pher) && old(k < |ants|) && a.level >= 1
      reads this, grid, pher
    {
      match a.kind
      case Queen => Reigned(k, a, d) && enemies == old(enemies) && unchanged(grid)
      case Worker => (if a.carrying then Hauled(k, a, d) else Foraged(k, a, d)) && enemies == old(enemies)
      case _ => exists near, best, dir :: Soldiered(k, a, d, near, best, dir)
    }

    /**
     * A fresh world: the generated terrain, the Queen in the nest and 12
     * Workers around her (offsets and speed rolls are the draws), 300 food
     * and 100 materials, the clock at 600, an empty pheromone field.
     */
    constructor (offsets: seq<Pos>, speedRolls: seq<real>, clusters: seq<Cluster>, gems: seq<Pos>)
      requires |offsets| == 12 && |speedRolls| == 12 && |clusters| == 40 && |gems| == 20
      requires forall k :: 0 <= k < 12 ==> -1 <= offsets[k].x <= 1 && -1 <= offsets[k].y <= 1
      requires forall m :: 0 <= m < 40 ==> clusters[m].Drawn()
      requires forall m :: 0 <= m < 20 ==> GemDrawn(gems[m])
      ensures Valid() && Solvent()
      ensures |ants| == 13 && ants[0].kind == Queen && ants[0].x == NestX && ants[0].y == NestY
      ensures forall k :: 1 <= k < 13 ==> ants[k].kind == Worker && ants[k].level == 1
      ensures enemies == [] && res == InitialResources && time == 600 && threat == 0 && !autoBreed
      ensures forall j, i :: 0 <= j < Height && 0 <= i < Width ==> grid[j, i] == Generated(clusters, gems, i, j) && pher[j, i] == 0.0
    {
      var g := Generate(clusters, gems);
      grid := g;
      pher := new real[Height, Width]((j, i) => 0.0);
      var queen := Ant(Queen, NestX, NestY, Idle, false, 2000.0, 2000.0, 100.0, 1.0, 5.0, 10, 0.0, 0);
      var all := [queen];
      var k := 0;
      while k < 12
        invariant 0 <= k <= 12 && |all| == k + 1 && all[0] == queen
        invariant forall m :: 1 <= m < |all| ==> all[m].kind == Worker && all[m].level == 1 && AntOk(all[m])
      {
        var w := Ant(Worker, NestX + offsets[k].x, NestY + offsets[k].y, Idle, false, 40.0, 40.0, 100.0,
                     0.8 + speedRolls[k] * 0.4, 1.0, 1, 0.0, 0);
        all := all + [w];
        k := k + 1;
      }
      ants := all;
      enemies := [];
      res := InitialResources;
      time := 600;
      threat := 0;
      autoBreed := false;
    }

    // ------------------------------------------------------------ commands

    /**
     * spawnAnt: refused (nothing changes) when food is below the kind's cost
     * or the colony has MaxAnts ants. Otherwise the cost is deducted first,
     * and a newborn is appended at the first Queen's tile if there is a
     * Queen; without a Queen the food is spent and no ant appears.
     */
    method SpawnAnt(t: AntType, speedRoll: real)
      requires Valid()
      modifies this`ants, this`res
      ensures Valid()
      ensures old(res.food) < AntFoodCost(t) || old(|ants|) >= MaxAnts ==> res == old(res) && ants == old(ants)
      ensures old(res.food) >= AntFoodCost(t) && old(|ants|) < MaxAnts ==>
        && res == old(res).(food := old(res.food) - AntFoodCost(t))
        && ants == match FirstQueen(old(ants))
                   case Some(q) => old(ants) + [Newborn(t, old(ants)[q].x, old(ants)[q].y, speedRoll)]
                   case None => old(ants)
      ensures old(Solvent()) ==> Solvent()
    {
      var cost := AntFoodCost(t);
      if res.food >= cost && |ants| < MaxAnts {
        res := res.(food := res.food - cost);
        var queen := FirstQueen(ants);
        if queen.Some? {
          var q := ants[queen.value];
          ants := ants + [Newborn(t, q.x, q.y, speedRoll)];
        }
      }
    }

    /** War cry: every Soldier and SuperSoldier gets full energy and the Attacking job. */
    method WarCry()
      requires Valid()
      modifies this`ants
      ensures Valid()
      ensures |ants| == old(|ants|) && forall k :: 0 <= k < |ants| ==> ants[k] == Enrage(old(ants[k]))
    {
      var k := 0;
      while k < |ants|
        invariant 0 <= k <= |ants| == old(|ants|)
        invariant forall m :: 0 <= m < |ants| ==> ants[m] == if m < k then Enrage(old(ants[m])) else old(ants[m])
        invariant Valid()
      {
        ants := ants[k := Enrage(ants[k])];
        k := k + 1;
      }
    }

    /**
     * interactCell at an in-bounds tile (the canvas only reports clicks
     * inside the grid). Dig clears Dirt, Food or Gem to Air for one material
     * (Food also gives 5 food, Gem 500 score) and ignores other tiles; bait
     * places Food on any tile; rally writes the pheromone disc; each build
     * tool, when materials cover its cost, pays it, overwrites the tile
     * whatever it was and adds its score, and otherwise changes nothing; war
     * cry enrages the combat ants.
     */
    method InteractCell(x: int, y: int, tool: Tool)
      requires Valid() && InBounds(x, y)
      modifies this`ants, this`res, grid, pher
      ensures Valid()
      ensures old(Solvent()) ==> Solvent()
      ensures tool != Warcry ==> ants == old(ants)
      ensures tool != Rally ==> unchanged(pher)
      ensures tool == Dig ==>
        && res == Credit(old(res), DigGain(old(grid[y, x])))
        && forall j, i :: 0 <= j < Height && 0 <= i < Width ==>
             grid[j, i] == if i == x && j == y && IsSoftBlock(old(grid[y, x])) then Air else old(grid[j, i])
      ensures tool == PlaceFood ==>
        && res == old(res)
        && forall j, i :: 0 <= j < Height && 0 <= i < Width ==> grid[j, i] == if i == x && j == y then Food else old(grid[j, i])
      ensures tool == Rally ==>
        && res == old(res) && unchanged(grid)
        && forall j, i :: 0 <= j < Height && 0 <= i < Width ==>
             pher[j, i] == if InDisc(i - x, j - y) then 1.0 else old(pher[j, i])
      ensures IsBuildTool(tool) && old(res.materials) >= BuildCost(tool) ==>
        && res == old(res).(materials := old(res.materials) - BuildCost(tool), score := old(res.score) + BuildReward(tool))
        && forall j, i :: 0 <= j < Height && 0 <= i < Width ==>
             grid[j, i] == if i == x && j == y then BuildTarget(tool) else old(grid[j, i])
      ensures IsBuildTool(tool) && old(res.materials) < BuildCost(tool) ==> res == old(res) && unchanged(grid)
      ensures tool == Warcry ==>
        && res == old(res) && unchanged(grid)
        && |ants| == old(|ants|) && forall k :: 0 <= k < |ants| ==> ants[k] == Enrage(old(ants[k]))
    {
      match tool
      case Dig =>
        var c := grid[y, x];
        if c == Dirt || c == Food || c == Gem {
          res := Credit(res, DigGain(c));
          grid[y, x] := Air;
        }
      case PlaceFood =>
        grid[y, x] := Food;
      case Rally =>
        RallyAt(pher, x, y);
      case BuildStorage =>
        Build(x, y, tool);
      case BuildNursery =>
        Build(x, y, tool);
      case BuildDefense =>
        Build(x, y, tool);
      case Warcry =>
        WarCry();
    }

    /** One of the three build tools at an in-bounds tile, gated on materials. */
    method Build(x: int, y: int, tool: Tool)
      requires Valid() && InBounds(x, y) && IsBuildTool(tool)
      modifies this`res, grid
      ensures Valid()
      ensures old(res.materials) >= BuildCost(tool) ==>
        && res == old(res).(materials := old(res.materials) - BuildCost(tool), score := old(res.score) + BuildReward(tool))
        && forall j, i :: 0 <= j < Height && 0 <= i < Width ==>
             grid[j, i] == if i == x && j == y then BuildTarget(tool) else old(grid[j, i])
      ensures old(res.materials) < BuildCost(tool) ==> res == old(res) && unchanged(grid)
    {
      if res.materials >= BuildCost(tool) {
        res := res.(materials := res.materials - BuildCost(tool), score := res.score + BuildReward(tool));
        grid[y, x] := BuildTarget(tool);
      }
    }

    /** spawnEnemy: appends an enemy whose species and health follow the threat and the species roll, in the given column. */
    method SpawnEnemy(kindRoll: real, column: int)
      modifies this`enemies
      ensures enemies == old(enemies) + [NewEnemy(threat, kindRoll, column)]
    {
      enemies := enemies + [NewEnemy(threat, kindRoll, column)];
    }

    /** addResources: an unconditional grant of food and materials. */
    method AddResources(f: int, m: int)
      modifies this`res
      ensures res == old(res).(food := old(res.food) + f, materials := old(res.materials) + m)
      ensures old(Solvent()) && f >= 0 && m >= 0 ==> Solvent()
    {
      res := res.(food := res.food + f, materials := res.materials + m);
    }

    // -------------------------------------------------------- ant movement

    /**
     * moveAnt for ant k toward (dx0, dy0): the speed skip, the crush of the
     * first tile, the slide, and the landing, as PlanMove decides them from
     * the grid before the move. The ant becomes Moved, the counters gain
     * MoveGain, exactly the Cleared tiles become Air, and moved reports
     * whether the ant changed tile.
     */
    method MoveAnt(k: nat, dx0: int, dy0: int, d: MoveDraws) returns (moved: bool)
      requires Valid() && k < |ants| && d.Wellformed()
      modifies this`ants, this`res, grid
      ensures Valid()
      ensures moved == old(MoveSucceeds(grid, ants[k], dx0, dy0, d))
      ensures ants == old(ants)[k := old(Moved(grid, ants[k], dx0, dy0, d))]
      ensures res == Credit(old(res), old(MoveGain(grid, ants[k], dx0, dy0, d)))
      ensures Excavated(old(ants[k]), Pos(dx0, dy0), d)
      ensures old(Solvent()) ==> Solvent()
      ensures res.score >= old(res.score) && res.food == old(res.food) && res.population == old(res.population)
    {
      var a := ants[k];
      ghost var p := PlanMove(grid, a, dx0, dy0, d);
      if d.speedRoll > a.speed {
        return false;
      }
      var dx, dy := Quantise(dx0), Quantise(dy0);
      var nx, ny := a.x + dx, a.y + dy;
      var cell := GetCell(grid, nx, ny);
      if Crushes(a, cell, d.crushRoll) {
        SetCell(grid, nx, ny, Air);
        cell := Air;
      }
      var soft := IsSoftBlock(cell);
      if IsHardBlock(cell) || (soft && a.job != Mining) {
        var dir := Slide(grid, a.x, a.y, dx, dy, d.jitterX, d.jitterY);
        nx, ny := a.x + dir.x, a.y + dir.y;
      }
      assert nx == p.aim.x && ny == p.aim.y && soft == p.soft && GetCell(grid, nx, ny) == p.cell;
      moved := Land(k, nx, ny, soft, d.mineRoll);
    }

    /**
     * The end of moveAnt for ant k at the aimed tile (nx, ny): step onto an
     * open tile; otherwise, on a mining attempt, pay 0.5 energy and, on a
     * mine roll above the mine chance, apply the tile's effect and clear it
     * to Air.
     */
    method Land(k: nat, nx: int, ny: int, soft: bool, mineRoll: real) returns (moved: bool)
      requires Valid() && k < |ants|
      requires soft && CanMine(ants[k], GetCell(grid, nx, ny)) ==> IsSoftBlock(GetCell(grid, nx, ny))
      modifies this`ants, this`res, grid
      ensures Valid()
      ensures moved == IsOpen(old(GetCell(grid, nx, ny)))
      ensures ants == old(ants)[k := Landed(old(ants[k]), Pos(nx, ny), old(GetCell(grid, nx, ny)), soft, mineRoll)]
      ensures res == Credit(old(res), LandGain(old(ants[k]), old(GetCell(grid, nx, ny)), soft, mineRoll))
      ensures forall j, i :: 0 <= j < Height && 0 <= i < Width ==>
        grid[j, i] == if Mines(old(ants[k]), old(GetCell(grid, nx, ny)), soft, mineRoll) && i == nx && j == ny then Air else old(grid[j, i])
    {
      var a := ants[k];
      var cell := GetCell(grid, nx, ny);
      moved := false;
      if IsOpen(cell) {
        NotRockInBounds(grid, nx, ny);
        ants := ants[k := a.(x := nx, y := ny)];
        moved := true;
      } else if CanMine(a, cell) && soft {
        var after := a;
        if mineRoll > MineChance(a) {
          NotRockInBounds(grid, nx, ny);
          var effect := MineEffect(a, cell);
          after := effect.0;
          res := Credit(res, effect.1);
          grid[ny, nx] := Air;
        }
        ants := ants[k := Tired(after)];
      }
    }

    // ------------------------------------------------------------ ant turns

    /** The Queen's aura: every other ant within the aura square below maxHealth gains 1.0 health. */
    method Aura(k: nat)
      requires Valid() && k < |ants|
      modifies this`ants
      ensures Valid()
      ensures |ants| == old(|ants|)
      ensures forall j :: 0 <= j < |ants| ==>
        ants[j] == if j != k && InAura(old(ants[k]), old(ants[j])) then AuraHeal(old(ants[j])) else old(ants[j])
    {
      var queen := ants[k];
      var j := 0;
      while j < |ants|
        invariant 0 <= j <= |ants| == old(|ants|)
        invariant ants[k] == queen
        invariant forall m :: 0 <= m < |ants| ==>
          ants[m] == if m < j && m != k && InAura(queen, old(ants[m])) then AuraHeal(old(ants[m])) else old(ants[m])
        invariant Valid()
      {
        if j != k && InAura(queen, ants[j]) {
          ants := ants[j := AuraHeal(ants[j])];
        }
        j := j + 1;
      }
    }

    /**
     * The Queen's turn, for Queen k entering it as a: when auto-breed is on,
     * food is above 50 and the colony is under the cap, a breed roll below
     * 0.05 spawns a Soldier (kind roll above 0.8) or a Worker through
     * spawnAnt; then the aura heals every other wounded ant near her, the
     * newborn included (it is at full health, so the aura leaves it as it is).
     */
    method QueenTurn(k: nat, a: Ant, d: AntDraws)
      requires Valid() && k < |ants| && AntOk(a)
      modifies this`ants, this`res
      ensures Valid()
      ensures old(Solvent()) ==> Solvent()
      ensures Reigned(k, a, d)
      ensures old(|ants|) <= |ants| <= old(|ants|) + 1
      ensures ants[k] == a
      ensures forall j :: 0 <= j < old(|ants|) && j != k ==> ants[j] == old(ants[j]).(health := ants[j].health)
      ensures res.score == old(res.score) && res.materials == old(res.materials) && res.population == old(res.population)
    {
      ants := ants[k := a];
      if CanBreed(autoBreed, res.food, |ants|) && d.breedRoll < 0.05 {
        SpawnAnt(BreedKind(d.breedKindRoll), d.breedSpeedRoll);
      }
      Aura(k);
    }

    /**
     * A soldier's turn, for soldier k entering it as a: with an enemy in
     * sight it fights the nearest one, otherwise it patrols (best and dir are
     * then the patrol's gradient scan).
     */
    method SoldierTurn(k: nat, a: Ant, d: AntDraws) returns (near: Option<nat>, best: real, dir: Pos)
      requires Valid() && k < |ants| && AntOk(a) && d.Wellformed()
      modifies this`ants, this`res, this`enemies, grid
      ensures Valid()
      ensures old(Solvent()) ==> Solvent()
      ensures Soldiered(k, a, d, near, best, dir)
      ensures |ants| == old(|ants|) && forall j :: 0 <= j < |ants| && j != k ==> ants[j] == old(ants[j])
      ensures ants[k].kind == a.kind && ants[k].level >= a.level
      ensures |enemies| == old(|enemies|)
      ensures forall j :: 0 <= j < |enemies| ==>
        enemies[j] == old(enemies[j]).(health := enemies[j].health) && enemies[j].health <= old(enemies[j].health)
      ensures res.score >= old(res.score) && res.food == old(res.food) && res.population == old(res.population)
    {
      near := NearestEnemy(enemies, a.x, a.y);
      best, dir := 0.0, Pos(0, 0);
      if near.Some? {
        Fight(k, a, enemies[near.value].x, enemies[near.value].y, d.move);
      } else {
        best, dir := Patrol(k, a, d);
      }
    }

    /**
     * Soldier k, entering as a, steps toward the enemy position (ex, ey)
     * and, if that position is then within its reach, strikes the first
     * enemy standing there.
     */
    method Fight(k: nat, a: Ant, ex: real, ey: real, m: MoveDraws)
      requires Valid() && k < |ants| && AntOk(a) && m.Wellformed()
      modifies this`ants, this`res, this`enemies, grid
      ensures Valid()
      ensures old(Solvent()) ==> Solvent()
      ensures Fought(k, a, ex, ey, m)
      ensures |ants| == old(|ants|) && forall j :: 0 <= j < |ants| && j != k ==> ants[j] == old(ants[j])
      ensures ants[k].kind == a.kind && ants[k].level >= a.level
      ensures |enemies| == old(|enemies|)
      ensures forall j :: 0 <= j < |enemies| ==>
        enemies[j] == old(enemies[j]).(health := enemies[j].health) && enemies[j].health <= old(enemies[j].health)
      ensures res.score >= old(res.score) && res.food == old(res.food) && res.population == old(res.population)
    {
      ants := ants[k := a];
      var dir := Facing(a, ex, ey);
      var _ := MoveAnt(k, dir.x, dir.y, m);
      var b := ants[k];
      assert b == old(Moved(grid, a, dir.x, dir.y, m));
      if WithinReach(b, ex, ey) {
        var hit := FirstEnemyAt(enemies, ex, ey);
        if hit.Some? {
          var outcome := Strike(b, enemies[hit.value]);
          ants := ants[k := outcome.0];
          enemies := enemies[hit.value := outcome.1];
        }
      }
    }

    /**
     * Soldier k, entering as a, with no enemy in sight scans the pheromones
     * around it (best and dir are the scan's outcome) and takes PatrolStep's
     * move: up the gradient, a wander, or none.
     */
    method Patrol(k: nat, a: Ant, d: AntDraws) returns (best: real, dir: Pos)
      requires Valid() && k < |ants| && AntOk(a) && d.Wellformed()
      modifies this`ants, this`res, grid
      ensures Valid()
      ensures old(Solvent()) ==> Solvent()
      ensures Patrolled(k, a, d, best, dir)
      ensures |ants| == old(|ants|) && forall j :: 0 <= j < |ants| && j != k ==> ants[j] == old(ants[j])
      ensures ants[k].kind == a.kind && ants[k].level >= a.level
      ensures res.score >= old(res.score) && res.food == old(res.food) && res.population == old(res.population)
    {
      ants := ants[k := a];
      best, dir := StrongestNeighbour(pher, a.x, a.y);
      var step := PatrolStep(best, dir, d);
      if step.Some? {
        var v := step.value;
        var _ := MoveAnt(k, v.x, v.y, d.move);
        assert ants[k] == old(Moved(grid, a, v.x, v.y, d.move));
      }
    }

    /** A Worker's turn, for Worker k entering it as a: hauling when it carries food, foraging otherwise. */
    method WorkerTurn(k: nat, a: Ant, d: AntDraws)
      requires Valid() && k < |ants| && AntOk(a) && d.Wellformed()
      modifies this`ants, this`res, grid
      ensures Valid()
      ensures old(Solvent()) ==> Solvent()
      ensures if a.carrying then Hauled(k, a, d) else Foraged(k, a, d)
      ensures |ants| == old(|ants|) && forall j :: 0 <= j < |ants| && j != k ==> ants[j] == old(ants[j])
      ensures ants[k].kind == a.kind && ants[k].level >= a.level
      ensures res.score >= old(res.score) && res.population == old(res.population)
    {
      if a.carrying {
        Haul(k, a, d);
      } else {
        Forage(k, a, d);
      }
    }

    /**
     * Worker k, entering as a and carrying, heads for the reported storage
     * tile (or the default nest tile) and deposits once it is within 2
     * tiles of it on both axes.
     */
    method Haul(k: nat, a: Ant, d: AntDraws)
      requires Valid() && k < |ants| && AntOk(a) && d.Wellformed()
      modifies this`ants, this`res, grid
      ensures Valid()
      ensures old(Solvent()) ==> Solvent()
      ensures Hauled(k, a, d)
      ensures |ants| == old(|ants|) && forall j :: 0 <= j < |ants| && j != k ==> ants[j] == old(ants[j])
      ensures ants[k].kind == a.kind && ants[k].level >= a.level
      ensures res.score >= old(res.score) && res.population == old(res.population)
    {
      ants := ants[k := a];
      var depot := Depot(d);
      var dir := Toward(a, depot.x, depot.y);
      var _ := MoveAnt(k, dir.x, dir.y, d.move);
      var b := ants[k];
      assert b == old(Moved(grid, a, dir.x, dir.y, d.move));
      if Delivers(b, depot) {
        ants := ants[k := Unload(b)];
        res := Deposit(res, CountKind(grid, Storage));
      }
    }

    /**
     * Worker k, entering as a without a load, heads for reported Food
     * (switching to Mining first when adjacent), else for a reported Gem
     * less than 8 columns away (switching to Mining after the move), else
     * wanders on a roll below 0.4, always downwards while in the sky band.
     */
    method Forage(k: nat, a: Ant, d: AntDraws)
      requires Valid() && k < |ants| && AntOk(a) && d.Wellformed()
      modifies this`ants, this`res, grid
      ensures Valid()
      ensures old(Solvent()) ==> Solvent()
      ensures Foraged(k, a, d)
      ensures |ants| == old(|ants|) && forall j :: 0 <= j < |ants| && j != k ==> ants[j] == old(ants[j])
      ensures ants[k].kind == a.kind && ants[k].level >= a.level
      ensures res.score >= old(res.score) && res.population == old(res.population)
    {
      var step := ForageStep(a, d);
      ants := ants[k := if step.Some? then step.value.0 else a];
      if step.Some? {
        var dir := step.value.1;
        var _ := MoveAnt(k, dir.x, dir.y, d.move);
        if SeeksGem(a, d) {
          ants := ants[k := ants[k].(job := Mining)];
        }
      }
    }

    /**
     * updateAnt for ant k: a dead ant is skipped; the flee check runs; an ant
     * at the sleep gate sleeps one tick and does nothing else; otherwise it
     * pays 0.05 energy and takes its species' turn.
     */
    method UpdateAnt(k: nat, d: AntDraws)
      requires Valid() && k < |ants| && d.Wellformed()
      modifies this`ants, this`res, this`enemies, grid
      ensures Valid()
      ensures old(Solvent()) ==> Solvent()
      ensures old(|ants|) <= |ants| <= old(|ants|) + 1
      ensures ants[k].kind == old(ants[k].kind) && ants[k].level >= old(ants[k].level)
      ensures forall j :: 0 <= j < old(|ants|) && j != k ==> ants[j] == old(ants[j]).(health := ants[j].health)
      ensures |enemies| == old(|enemies|)
      ensures forall j :: 0 <= j < |enemies| ==>
        enemies[j] == old(enemies[j]).(health := enemies[j].health) && enemies[j].health <= old(enemies[j].health)
      ensures res.score >= old(res.score) && res.population == old(res.population)
      ensures old(ants[k].health) <= 0.0 ==> ants == old(ants) && res == old(res) && enemies == old(enemies) && unchanged(grid)
      ensures old(ants[k].health) > 0.0 && SleepGate(Flee(old(ants[k])), old(|enemies|), IsNight(time)) ==>
        ants == old(ants)[k := SleepStep(Flee(old(ants[k])))] && res == old(res) && enemies == old(enemies) && unchanged(grid)
      ensures old(ants[k].health) > 0.0 && !SleepGate(Flee(old(ants[k])), old(|enemies|), IsNight(time)) ==>
        Acted(k, Flee(old(ants[k])).(energy := Flee(old(ants[k])).energy - 0.05), d)
    {
      var a := ants[k];
      if a.health <= 0.0 {
        return;
      }
      a := Flee(a);
      if SleepGate(a, |enemies|, IsNight(time)) {
        ants := ants[k := SleepStep(a)];
        return;
      }
      Act(k, a.(energy := a.energy - 0.05), d);
    }

    /** Ant k, entering as a, takes its species turn: the Queen's, a soldier's or a Worker's. */
    method Act(k: nat, a: Ant, d: AntDraws)
      requires Valid() && k < |ants| && AntOk(a) && d.Wellformed()
      modifies this`ants, this`res, this`enemies, grid
      ensures Valid()
      ensures old(Solvent()) ==> Solvent()
      ensures Acted(k, a, d)
      ensures old(|ants|) <= |ants| <= old(|ants|) + 1
      ensures ants[k].kind == a.kind && ants[k].level >= a.level
      ensures forall j :: 0 <= j < old(|ants|) && j != k ==> ants[j] == old(ants[j]).(health := ants[j].health)
      ensures |enemies| == old(|enemies|)
      ensures forall j :: 0 <= j < |enemies| ==>
        enemies[j] == old(enemies[j]).(health := enemies[j].health) && enemies[j].health <= old(enemies[j].health)
      ensures res.score >= old(res.score) && res.population == old(res.population)
    {
      match a.kind
      case Queen => QueenTurn(k, a, d);
      case Worker => WorkerTurn(k, a, d);
      case _ =>
        var near, best, dir := SoldierTurn(k, a, d);
    }

    // ----------------------------------------------------------------- tick

    /** The ants' pass: every ant present at its start is updated once, in list order; ants spawned during it wait for the next tick. */
    method UpdateAnts(draw: nat -> AntDraws)
      requires Valid() && forall k: nat :: draw(k).Wellformed()
      modifies this`ants, this`res, this`enemies, grid
      ensures Valid()
      ensures old(Solvent()) ==> Solvent()
      ensures |ants| >= old(|ants|)
      ensures forall j :: 0 <= j < old(|ants|) ==> ants[j].kind == old(ants[j].kind) && ants[j].level >= old(ants[j].level)
      ensures |enemies| == old(|enemies|)
      ensures forall j :: 0 <= j < |enemies| ==>
        enemies[j] == old(enemies[j]).(health := enemies[j].health) && enemies[j].health <= old(enemies[j].health)
      ensures res.score >= old(res.score) && res.population == old(res.population)
    {
      var n := |ants|;
      var k := 0;
      while k < n
        invariant 0 <= k <= n <= |ants|
        invariant Valid()
        invariant old(Solvent()) ==> Solvent()
        invariant forall j :: 0 <= j < n ==> ants[j].kind == old(ants[j].kind) && ants[j].level >= old(ants[j].level)
        invariant |enemies| == old(|enemies|)
        invariant forall j :: 0 <= j < |enemies| ==>
          enemies[j] == old(enemies[j]).(health := enemies[j].health) && enemies[j].health <= old(enemies[j].health)
        invariant res.score >= old(res.score) && res.population == old(res.population)
      {
        UpdateAnt(k, draw(k));
        k := k + 1;
      }
    }

    /**
     * The enemies' pass, in list order: each enemy moves toward its goal (or
     * wanders) and bites its target when it was closer than 2, and each
     * Termite first clears the Dirt tile it stands on. No enemy's choice
     * depends on another's, so the pass equals every enemy pursuing from the
     * ants' positions at its start, each ant losing 5 health per bite, and
     * the Dirt under each Termite turning to Air.
     */
    method EnemyPhase(draw: nat -> EnemyDraws)
      requires Valid()
      modifies this`ants, this`enemies, grid
      ensures Valid()
      ensures |enemies| == old(|enemies|)
      ensures forall j :: 0 <= j < |enemies| ==> enemies[j] == Pursue(old(ants), old(enemies[j]), draw(j))
      ensures Bitten(old(ants), ants, old(enemies))
      ensures |ants| == old(|ants|)
      ensures forall j :: 0 <= j < |ants| ==> ants[j].kind == old(ants[j].kind) && ants[j].level == old(ants[j].level)
      ensures forall j, i :: 0 <= j < Height && 0 <= i < Width ==>
        grid[j, i] == if Dug(old(enemies), i, j) && old(grid[j, i]) == Dirt then Air else old(grid[j, i])
    {
      ghost var es := enemies;
      var k := 0;
      while k < |enemies|
        invariant 0 <= k <= |enemies| == |es|
        invariant Valid()
        invariant forall j :: 0 <= j < |enemies| ==> enemies[j] == if j < k then Pursue(old(ants), es[j], draw(j)) else es[j]
        invariant Bitten(old(ants), ants, es[..k])
        invariant forall j, i :: 0 <= j < Height && 0 <= i < Width ==>
          grid[j, i] == if Dug(es[..k], i, j) && old(grid[j, i]) == Dirt then Air else old(grid[j, i])
      {
        var e := enemies[k];
        Positional(ants, old(ants), e);
        assert es[..k + 1] == es[..k] + [e];
        forall j, i | 0 <= j < Height && 0 <= i < Width {
          DugSnoc(es[..k], e, i, j);
        }
        ghost var before := ants;
        EnemyAct(k, draw(k));
        BittenSnoc(old(ants), before, ants, es[..k], e);
        k := k + 1;
      }
      assert es[..k] == es;
    }

    /**
     * One enemy's action: pick the nearest ant closer than 40; a Termite
     * clears the Dirt tile it stands on; move; and if the target was closer
     * than 2 before the move, it loses 5 health.
     */
    method EnemyAct(k: nat, dr: EnemyDraws)
      requires Valid() && k < |enemies|
      modifies this`ants, this`enemies, grid
      ensures Valid()
      ensures enemies == old(enemies)[k := Pursue(old(ants), old(enemies[k]), dr)]
      ensures BiteStep(old(ants), ants, old(enemies[k]))
      ensures forall j, i :: 0 <= j < Height && 0 <= i < Width ==>
        grid[j, i] == if Digs(old(enemies[k]), i, j) && old(grid[j, i]) == Dirt then Air else old(grid[j, i])
    {
      var e := enemies[k];
      var target, dist := NearestAnt(ants, e);
      Burrow(grid, e);
      var goal := if target.Some? then Some(Pos(ants[target.value].x, ants[target.value].y)) else None;
      enemies := enemies[k := EnemyMove(e, goal, dr.wx, dr.wy)];
      if target.Some? && dist < 2.0 {
        var t := target.value;
        ants := ants[t := ants[t].(health := ants[t].health - 5.0)];
      }
    }

    /**
     * Enemy death cleanup: the enemies at 0 health or less are removed and the
     * survivors keep their order; each removed enemy adds 200 score and turns
     * its square of tiles into Food.
     */
    method Cleanup()
      requires Valid()
      modifies this`enemies, this`res, grid
      ensures Valid()
      ensures enemies == Filter(old(enemies), IsAlive)
      ensures |Filter(old(enemies), IsDead)| == old(|enemies|) - |enemies|
      ensures res == old(res).(score := old(res.score) + 200.0 * |Filter(old(enemies), IsDead)| as real)
      ensures forall j, i :: 0 <= j < Height && 0 <= i < Width ==>
        grid[j, i] == if Buried(old(enemies), i, j) then Food else old(grid[j, i])
    {
      var es := enemies;
      var alive: seq<Enemy> := [];
      ghost var seen: seq<Enemy> := [];
      var k := 0;
      while k < |es|
        invariant 0 <= k <= |es| && seen == es[..k]
        invariant enemies == es
        invariant alive == Filter(seen, IsAlive)
        invariant res == old(res).(score := old(res.score) + 200.0 * |Filter(seen, IsDead)| as real)
        invariant forall j, i :: 0 <= j < Height && 0 <= i < Width ==>
          grid[j, i] == if Buried(seen, i, j) then Food else old(grid[j, i])
      {
        var e := es[k];
        alive := Sift(seen, alive, e);
        forall j, i | 0 <= j < Height && 0 <= i < Width
          ensures grid[j, i] == if Buried(seen + [e], i, j) then Food else old(grid[j, i])
        {
          BuriedSnoc(seen, e, i, j);
        }
        assert es[..k + 1] == seen + [e];
        seen := seen + [e];
        k := k + 1;
      }
      assert seen == es;
      FilterSplit(es, IsAlive, IsDead);
      enemies := alive;
    }

    /** One enemy of the cleanup pass: kept when alive, buried (score and Food square) when dead. */
    method Sift(ghost seen: seq<Enemy>, alive: seq<Enemy>, e: Enemy) returns (next: seq<Enemy>)
      requires IsGrid(grid)
      requires alive == Filter(seen, IsAlive)
      modifies this`res, grid
      ensures next == Filter(seen + [e], IsAlive)
      ensures |Filter(seen + [e], IsDead)| == |Filter(seen, IsDead)| + (if IsDead(e) then 1 else 0)
      ensures res == old(res).(score := old(res.score) + if IsDead(e) then 200.0 else 0.0)
      ensures forall j, i :: 0 <= j < Height && 0 <= i < Width ==>
        grid[j, i] == if IsDead(e) && Covers(e, i, j) then Food else old(grid[j, i])
    {
      FilterSnoc(seen, e, IsAlive);
      FilterSnoc(seen, e, IsDead);
      if IsAlive(e) {
        next := alive + [e];
      } else {
        next := alive;
        Bury(e);
      }
    }

    /** A dead enemy's reward and remains: 200 score and its Food square. */
    method Bury(e: Enemy)
      requires IsGrid(grid)
      modifies this`res, grid
      ensures res == old(res).(score := old(res.score) + 200.0)
      ensures forall j, i :: 0 <= j < Height && 0 <= i < Width ==>
        grid[j, i] == if Covers(e, i, j) then Food else old(grid[j, i])
    {
      res := res.(score := res.score + 200.0);
      StampMeat(grid, e);
    }

    /** The start of a step: clock, score, threat, fungal growth and automatic spawning. */
    method Advance(d: StepDraws)
      requires Valid() && d.Wellformed()
      modifies this`res, this`enemies, this`time, this`threat, grid
      ensures Valid()
      ensures ants == old(ants)
      ensures time == NextTime(old(time))
      ensures res == old(res).(score := old(res.score) + 0.01)
      ensures threat == Threat(old(res.score) + 0.01, old(res.population))
      ensures enemies == if d.spawnRoll < SpawnChance(threat) then old(enemies) + [NewEnemy(threat, d.kindRoll, d.spawnColumn)] else old(enemies)
      ensures forall j, i :: 0 <= j < Height && 0 <= i < Width ==>
        grid[j, i] == if i == d.fungalX && j == d.fungalY && d.Sprouts(old(grid[j, i])) then Food else old(grid[j, i])
    {
      time := NextTime(time);
      res := res.(score := res.score + 0.01);
      threat := Threat(res.score, res.population);
      if d.fungalRoll < 0.2 {
        var c := grid[d.fungalY, d.fungalX];
        if c == Air || c == Dirt {
          if d.fungalY > SurfaceDepth {
            grid[d.fungalY, d.fungalX] := Food;
          }
        }
      }
      if d.spawnRoll < SpawnChance(threat) {
        SpawnEnemy(d.kindRoll, d.spawnColumn);
      }
    }

    /**
     * The prune before the ants' turns: every dead ant leaves the list and
     * the living keep their order.
     */
    method PruneAnts()
      requires Valid()
      modifies this`ants
      ensures Valid()
      ensures ants == Filter(old(ants), AntAlive)
      ensures forall j :: 0 <= j < |ants| ==> ants[j].health > 0.0
      ensures forall a :: a in old(ants) ==> (a in ants <==> a.health > 0.0)
    {
      FilterMembers(ants, AntAlive);
      ants := Filter(ants, AntAlive);
      assert forall j :: 0 <= j < |ants| ==> ants[j] in ants;
    }

    /**
     * The ants' half of a tick: the dead are pruned, then every survivor
     * takes its turn. The survivors keep their kind and their order, and
     * none loses a level.
     */
    method AntPhase(draw: nat -> AntDraws)
      requires Valid() && forall k: nat :: draw(k).Wellformed()
      modifies this`ants, this`res, this`enemies, grid
      ensures Valid()
      ensures old(Solvent()) ==> Solvent()
      ensures |ants| >= |Filter(old(ants), AntAlive)|
      ensures forall j :: 0 <= j < |Filter(old(ants), AntAlive)| ==>
        ants[j].kind == Filter(old(ants), AntAlive)[j].kind && ants[j].level >= Filter(old(ants), AntAlive)[j].level
      ensures |enemies| == old(|enemies|)
      ensures forall j :: 0 <= j < |enemies| ==>
        enemies[j] == old(enemies[j]).(health := enemies[j].health) && enemies[j].health <= old(enemies[j].health)
      ensures res.score >= old(res.score) && res.population == old(res.population)
    {
      PruneAnts();
      UpdateAnts(draw);
    }

    /**
     * One simulation step of gameLoop: the clock wraps, score gains 0.01,
     * threat is recomputed, fungal growth may turn an Air or Dirt tile below
     * row 15 into Food, an enemy may spawn, dead ants are pruned and the rest
     * updated, pheromones decay, enemies act, and dead enemies are cleaned up.
     */
    method Step(d: StepDraws)
      requires Valid() && d.Wellformed()
      modifies this`ants, this`res, this`enemies, this`time, this`threat, grid, pher
      ensures Valid()
      ensures old(Solvent()) ==> Solvent()
      ensures time == NextTime(old(time))
      ensures threat == Threat(old(res.score) + 0.01, old(res.population))
      ensures res.score >= old(res.score) + 0.01 && res.population == old(res.population)
      ensures |enemies| <= old(|enemies|) + 1
      ensures res.score >= old(res.score) + 0.01 + 200.0 * (old(|enemies|) - |enemies|) as real
      ensures forall j :: 0 <= j < |enemies| ==> enemies[j].health > 0.0
      ensures forall j, i :: 0 <= j < Height && 0 <= i < Width ==> pher[j, i] == DecayCell(old(pher[j, i]))
      ensures |ants| >= |Filter(old(ants), AntAlive)|
      ensures forall j :: 0 <= j < |Filter(old(ants), AntAlive)| ==>
        ants[j].kind == Filter(old(ants), AntAlive)[j].kind && ants[j].level >= Filter(old(ants), AntAlive)[j].level
    {
      Advance(d);
      AntPhase(d.ant);
      Decay(pher);
      EnemyPhase(d.enemy);
      var present := enemies;
      Cleanup();
      FilterMembers(present, IsAlive);
      assert forall j :: 0 <= j < |enemies| ==> enemies[j] in Filter(present, IsAlive);
    }

    /** gameLoop: runs one step per draw record (the speed multiplier), then records the population. */
    method GameLoop(steps: seq<StepDraws>)
      requires Valid() && forall s :: s in steps ==> s.Wellformed()
      modifies this`ants, this`res, this`enemies, this`time, this`threat, grid, pher
      ensures Valid()
      ensures old(Solvent()) ==> Solvent()
      ensures time == (old(time) + |steps|) % DayLength
      ensures res.population == |ants|
      ensures res.score >= old(res.score) + 0.01 * |steps| as real
    {
      var s := 0;
      while s < |steps|
        invariant 0 <= s <= |steps|
        invariant Valid()
        invariant old(Solvent()) ==> Solvent()
        invariant time == (old(time) + s) % DayLength
        invariant res.score >= old(res.score) + 0.01 * s as real
      {
        Step(steps[s]);
        s := s + 1;
      }
      res := res.(population := |ants|);
    }
  }
}
