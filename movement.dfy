/**
 * moveAnt's decisions (hooks/useGameEngine.ts:222-310) as functions of the
 * grid before the move: the speed skip, the crush, the collision slide, the
 * tile finally aimed at, and what landing there does to the ant, the
 * counters and the grid. The World's MoveAnt method is proved against them.
 */
module Movement {
  import opened Types
  import opened Progression
  import opened Rules
  import opened Grid

  /** The draws one call of moveAnt makes: the speed skip, the Defense crush, the jitter after a blocked slide, the mine roll. */
  datatype MoveDraws = MoveDraws(speedRoll: real, crushRoll: real, jitterX: int, jitterY: int, mineRoll: real) {
    /** The jitter is rand(3) - 1 on each axis. */
    predicate Wellformed() {
      -1 <= jitterX <= 1 && -1 <= jitterY <= 1
    }
  }

  /** The ant after a mining attempt has cost it 0.5 energy. */
  function Tired(a: Ant): Ant {
    a.(energy := a.energy - 0.5)
  }

  /**
   * moveAnt's collision slide for a blocked move of (x, y) by (dx, dy): a
   * horizontal move turns down, else up, to an Air tile; a vertical move
   * turns right, else left; failing both it takes the jitter (jx, jy). A
   * diagonal or null move is kept.
   */
  function Slide(g: array2<Cell>, x: int, y: int, dx: int, dy: int, jx: int, jy: int): (r: Pos)
    requires IsGrid(g)
    reads g
    ensures -1 <= dx <= 1 && -1 <= dy <= 1 && -1 <= jx <= 1 && -1 <= jy <= 1 ==> -1 <= r.x <= 1 && -1 <= r.y <= 1
    ensures (dx == 0) == (dy == 0) ==> r == Pos(dx, dy)
    ensures dx != 0 && dy == 0 ==>
      && (GetCell(g, x, y + 1) == Air ==> r == Pos(0, 1))
      && (GetCell(g, x, y + 1) != Air && GetCell(g, x, y - 1) == Air ==> r == Pos(0, -1))
      && (GetCell(g, x, y + 1) != Air && GetCell(g, x, y - 1) != Air ==> r == Pos(jx, jy))
    ensures dy != 0 && dx == 0 ==>
      && (GetCell(g, x + 1, y) == Air ==> r == Pos(1, 0))
      && (GetCell(g, x + 1, y) != Air && GetCell(g, x - 1, y) == Air ==> r == Pos(-1, 0))
      && (GetCell(g, x + 1, y) != Air && GetCell(g, x - 1, y) != Air ==> r == Pos(jx, jy))
  {
    if dx != 0 && dy == 0 then
      if GetCell(g, x, y + 1) == Air then Pos(0, 1)
      else if GetCell(g, x, y - 1) == Air then Pos(0, -1)
      else Pos(jx, jy)
    else if dy != 0 && dx == 0 then
      if GetCell(g, x + 1, y) == Air then Pos(1, 0)
      else if GetCell(g, x - 1, y) == Air then Pos(-1, 0)
      else Pos(jx, jy)
    else Pos(dx, dy)
  }

  /**
   * What moveAnt decides before it acts: whether the speed roll skips the
   * move, the first tile in the quantised direction and whether it is
   * crushed, the tile finally aimed at (after the slide, if the first tile
   * blocked), the kind found there, and whether the first tile was soft.
   */
  datatype Plan = Plan(skip: bool, crush: bool, first: Pos, aim: Pos, cell: Cell, soft: bool)

  /**
   * The plan of a move of ant a toward (dx0, dy0) on grid g. A crushed tile
   * reads as Air afterwards, so a crush never slides; a slide reads only
   * tiles beside the ant, which the crush does not touch, so the whole plan
   * is a function of the grid before the move.
   */
  function PlanMove(g: array2<Cell>, a: Ant, dx0: int, dy0: int, d: MoveDraws): (p: Plan)
    requires IsGrid(g)
    reads g
    ensures p.skip <==> d.speedRoll > a.speed
    ensures p.first == Pos(a.x + Quantise(dx0), a.y + Quantise(dy0))
    ensures p.crush <==> Crushes(a, GetCell(g, p.first.x, p.first.y), d.crushRoll)
    ensures p.crush ==> InBounds(p.first.x, p.first.y) && p.aim == p.first && p.cell == Air && !p.soft
    ensures !p.crush ==> p.cell == GetCell(g, p.aim.x, p.aim.y)
    ensures p.soft <==> !p.crush && IsSoftBlock(GetCell(g, p.first.x, p.first.y))
    ensures !p.crush && !Blocked(a, GetCell(g, p.first.x, p.first.y)) ==> p.aim == p.first
    ensures !p.crush && Blocked(a, GetCell(g, p.first.x, p.first.y)) ==>
      var s := Slide(g, a.x, a.y, Quantise(dx0), Quantise(dy0), d.jitterX, d.jitterY);
      p.aim == Pos(a.x + s.x, a.y + s.y)
    ensures d.Wellformed() ==> -1 <= p.aim.x - a.x <= 1 && -1 <= p.aim.y - a.y <= 1
    ensures IsOpen(p.cell) ==> InBounds(p.aim.x, p.aim.y)
    ensures p.soft && CanMine(a, p.cell) ==> IsSoftBlock(p.cell)
  {
    var dx, dy := Quantise(dx0), Quantise(dy0);
    var first := Pos(a.x + dx, a.y + dy);
    var c0 := GetCell(g, first.x, first.y);
    var crush := Crushes(a, c0, d.crushRoll);
    var c := if crush then Air else c0;
    if Blocked(a, c) then
      var dir := Slide(g, a.x, a.y, dx, dy, d.jitterX, d.jitterY);
      var aim := Pos(a.x + dir.x, a.y + dir.y);
      Plan(d.speedRoll > a.speed, crush, first, aim, GetCell(g, aim.x, aim.y), IsSoftBlock(c))
    else
      Plan(d.speedRoll > a.speed, crush, first, first, c, IsSoftBlock(c))
  }

  /** A mining attempt: the aimed tile c does not let the ant through, the first tile was soft, and the ant may mine c. */
  predicate Attempts(a: Ant, c: Cell, soft: bool) {
    !IsOpen(c) && soft && CanMine(a, c)
  }

  /** The attempt succeeds: the mine roll beats the ant's mine chance. */
  predicate Mines(a: Ant, c: Cell, soft: bool, roll: real) {
    Attempts(a, c, soft) && roll > MineChance(a)
  }

  /**
   * The ant after landing at aim, which holds c: it steps there when c is
   * open; a mining attempt costs 0.5 energy, and a successful one applies
   * the tile's effect first; otherwise the ant stays as it was.
   */
  function Landed(a: Ant, aim: Pos, c: Cell, soft: bool, roll: real): (r: Ant)
    requires a.level >= 1
    ensures IsOpen(c) ==> r == a.(x := aim.x, y := aim.y)
    ensures !IsOpen(c) ==> r.x == a.x && r.y == a.y
    ensures Mines(a, c, soft, roll) ==> r == Tired(MineEffect(a, c).0)
    ensures Attempts(a, c, soft) && roll <= MineChance(a) ==> r == Tired(a)
    ensures !IsOpen(c) && !Attempts(a, c, soft) ==> r == a
    ensures r.kind == a.kind && r.level >= a.level && r.strength >= a.strength
  {
    if IsOpen(c) then a.(x := aim.x, y := aim.y)
    else if Attempts(a, c, soft) then Tired(if roll > MineChance(a) then MineEffect(a, c).0 else a)
    else a
  }

  /** What landing credits: the mined tile's gain on a successful attempt, nothing otherwise. Mining never gives food. */
  function LandGain(a: Ant, c: Cell, soft: bool, roll: real): (g: Gain)
    requires a.level >= 1
    ensures Mines(a, c, soft, roll) ==> g == MineEffect(a, c).1
    ensures !Mines(a, c, soft, roll) ==> g == Gain(0, 0, 0.0)
    ensures g.food == 0 && g.materials >= 0 && g.score >= 0.0
  {
    if Mines(a, c, soft, roll) then MineEffect(a, c).1 else Gain(0, 0, 0.0)
  }

  /** The move gets the ant onto a tile: no skip and an open aimed tile. */
  predicate MoveSucceeds(g: array2<Cell>, a: Ant, dx0: int, dy0: int, d: MoveDraws)
    requires IsGrid(g)
    reads g
  {
    var p := PlanMove(g, a, dx0, dy0, d);
    !p.skip && IsOpen(p.cell)
  }

  /** The ant after moveAnt. */
  function Moved(g: array2<Cell>, a: Ant, dx0: int, dy0: int, d: MoveDraws): (r: Ant)
    requires IsGrid(g) && a.level >= 1
    reads g
    ensures r.kind == a.kind && r.level >= a.level && r.strength >= a.strength
    ensures d.Wellformed() ==> -1 <= r.x - a.x <= 1 && -1 <= r.y - a.y <= 1
    ensures InBounds(a.x, a.y) && d.Wellformed() ==> InBounds(r.x, r.y)
  {
    var p := PlanMove(g, a, dx0, dy0, d);
    if p.skip then a else Landed(a, p.aim, p.cell, p.soft, d.mineRoll)
  }

  /** What moveAnt credits to the colony's counters. */
  function MoveGain(g: array2<Cell>, a: Ant, dx0: int, dy0: int, d: MoveDraws): Gain
    requires IsGrid(g) && a.level >= 1
    reads g
  {
    var p := PlanMove(g, a, dx0, dy0, d);
    if p.skip then Gain(0, 0, 0.0) else LandGain(a, p.cell, p.soft, d.mineRoll)
  }

  /** Tile (i, j) is cleared to Air by moveAnt: the crushed first tile, or the successfully mined aimed tile. */
  predicate Cleared(g: array2<Cell>, a: Ant, dx0: int, dy0: int, d: MoveDraws, i: int, j: int)
    requires IsGrid(g)
    reads g
  {
    var p := PlanMove(g, a, dx0, dy0, d);
    && !p.skip
    && ((p.crush && i == p.first.x && j == p.first.y) || (Mines(a, p.cell, p.soft, d.mineRoll) && i == p.aim.x && j == p.aim.y))
  }

  /**
   * A move succeeds exactly when the speed roll allows it and the aimed tile
   * is open, and then the ant stands on that tile, at most one step away on
   * each axis, and nothing else about it changes. Otherwise it stays where
   * it was. Kind, level and strength are never lowered.
   */
  lemma MovedStep(g: array2<Cell>, a: Ant, dx0: int, dy0: int, d: MoveDraws)
    requires IsGrid(g) && a.level >= 1 && d.Wellformed()
    ensures var b, p := Moved(g, a, dx0, dy0, d), PlanMove(g, a, dx0, dy0, d);
      && (MoveSucceeds(g, a, dx0, dy0, d) ==>
            b == a.(x := p.aim.x, y := p.aim.y) && IsOpen(p.cell) && InBounds(b.x, b.y)
            && -1 <= b.x - a.x <= 1 && -1 <= b.y - a.y <= 1)
      && (!MoveSucceeds(g, a, dx0, dy0, d) ==> b.x == a.x && b.y == a.y)
      && b.kind == a.kind && b.level >= a.level && b.strength >= a.strength
  {
  }

  /**
   * A failed move costs energy exactly when it is a mining attempt: 0.5,
   * plus the mined tile's effect when the mine roll beats the mine chance,
   * which is then the only way a move credits anything.
   */
  lemma MovedMining(g: array2<Cell>, a: Ant, dx0: int, dy0: int, d: MoveDraws)
    requires IsGrid(g) && a.level >= 1
    ensures var p := PlanMove(g, a, dx0, dy0, d);
      && (!p.skip && Mines(a, p.cell, p.soft, d.mineRoll) ==>
            IsSoftBlock(p.cell)
            && Moved(g, a, dx0, dy0, d) == Tired(MineEffect(a, p.cell).0)
            && MoveGain(g, a, dx0, dy0, d) == MineEffect(a, p.cell).1)
      && (!p.skip && Attempts(a, p.cell, p.soft) && d.mineRoll <= MineChance(a) ==>
            Moved(g, a, dx0, dy0, d) == Tired(a) && MoveGain(g, a, dx0, dy0, d) == Gain(0, 0, 0.0))
      && (p.skip || !Mines(a, p.cell, p.soft, d.mineRoll) ==> MoveGain(g, a, dx0, dy0, d) == Gain(0, 0, 0.0))
  {
  }

  /**
   * moveAnt clears at most one tile, and only a tile of the grid: a crushed
   * Dirt or Defense tile (only a Soldier or SuperSoldier above level 5
   * crushes), or the soft tile it mined. A crush and a mine never happen in
   * the same move.
   */
  lemma ClearedTiles(g: array2<Cell>, a: Ant, dx0: int, dy0: int, d: MoveDraws, i: int, j: int, i2: int, j2: int)
    requires IsGrid(g) && a.level >= 1
    requires Cleared(g, a, dx0, dy0, d, i, j) && Cleared(g, a, dx0, dy0, d, i2, j2)
    ensures i == i2 && j == j2 && InBounds(i, j)
    ensures g[j, i] in {Dirt, Defense, Food, Gem}
    ensures g[j, i] == Defense ==> CanCrush(a) && d.crushRoll < 0.2
  {
  }
}
