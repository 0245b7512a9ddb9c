/**
 * Spatial queries of the engine (hooks/useGameEngine.ts): the ENEMY and NEST
 * branches of findNearest, the enemies' target scan, the Queen lookup, the
 * soldiers' pheromone-gradient scan and the lookup of an enemy by position.
 */
module Search {
  import opened Types
  import opened Grid

  /** Vision range of a soldier looking for enemies (Manhattan). */
  const EnemyRange: real := 100.0
  /** Maximum Manhattan distance at which an enemy picks a target. */
  const TargetRange: real := 40.0

  function EnemyDist(e: Enemy, x: int, y: int): real {
    Manhattan(e.x, e.y, x as real, y as real)
  }

  /**
   * best is the outcome of the ENEMY search from (x, y): the enemy closest
   * (Manhattan) to (x, y) among those closer than 100, the first one in list
   * order on a tie; None if there is no such enemy.
   */
  predicate IsNearestEnemy(es: seq<Enemy>, x: int, y: int, best: Option<nat>) {
    && (best.None? <==> forall j :: 0 <= j < |es| ==> EnemyDist(es[j], x, y) >= EnemyRange)
    && (best.Some? ==>
      && best.value < |es|
      && EnemyDist(es[best.value], x, y) < EnemyRange
      && (forall j :: 0 <= j < |es| ==> EnemyDist(es[best.value], x, y) <= EnemyDist(es[j], x, y))
      && (forall j :: 0 <= j < best.value ==> EnemyDist(es[best.value], x, y) < EnemyDist(es[j], x, y)))
  }

  /** The ENEMY search, scanning the enemies in list order. */
  method NearestEnemy(es: seq<Enemy>, x: int, y: int) returns (best: Option<nat>)
    ensures IsNearestEnemy(es, x, y, best)
  {
    best := None;
    var bestDist := 0.0;
    var k := 0;
    while k < |es|
      invariant 0 <= k <= |es|
      invariant best.None? <==> forall j :: 0 <= j < k ==> EnemyDist(es[j], x, y) >= EnemyRange
      invariant best.Some? ==>
        && best.value < k
        && bestDist == EnemyDist(es[best.value], x, y) < EnemyRange
        && (forall j :: 0 <= j < k ==> bestDist <= EnemyDist(es[j], x, y))
        && (forall j :: 0 <= j < best.value ==> bestDist < EnemyDist(es[j], x, y))
    {
      var d := EnemyDist(es[k], x, y);
      if d < EnemyRange && (best.None? || d < bestDist) {
        best, bestDist := Some(k), d;
      }
      k := k + 1;
    }
  }

  function AntDist(a: Ant, e: Enemy): real {
    Manhattan(a.x as real, a.y as real, e.x, e.y)
  }

  /**
   * An enemy's target scan over the first n ants, as the scan leaves it:
   * the target so far and its distance, starting from no target at
   * distance 40 and taking each ant strictly closer than the running
   * distance.
   */
  function ScanAnts(ants: seq<Ant>, e: Enemy, n: nat): (r: (Option<nat>, real))
    requires n <= |ants|
    ensures r.0.Some? ==> r.0.value < n
  {
    if n == 0 then (None, TargetRange)
    else
      var prev := ScanAnts(ants, e, n - 1);
      var d := AntDist(ants[n - 1], e);
      if d < prev.1 then (Some(n - 1), d) else prev
  }

  /**
   * The scan finds the first nearest ant closer than 40: no target exactly
   * when every ant is at least 40 away (the distance then stays 40), and
   * otherwise an ant at the running distance that no ant beats and no
   * earlier ant ties.
   */
  lemma {:induction false} ScanAntsNearest(ants: seq<Ant>, e: Enemy, n: nat)
    requires n <= |ants|
    ensures var r := ScanAnts(ants, e, n);
      && (r.0.None? <==> forall j :: 0 <= j < n ==> AntDist(ants[j], e) >= TargetRange)
      && (r.0.None? ==> r.1 == TargetRange)
      && (r.0.Some? ==> r.1 == AntDist(ants[r.0.value], e) < TargetRange
                        && forall j :: 0 <= j < r.0.value ==> r.1 < AntDist(ants[j], e))
      && (forall j :: 0 <= j < n ==> r.1 <= AntDist(ants[j], e))
  {
    if n > 0 {
      ScanAntsNearest(ants, e, n - 1);
    }
  }

  /** The ant an enemy targets and its distance: the whole scan. */
  function Target(ants: seq<Ant>, e: Enemy): (Option<nat>, real) {
    ScanAnts(ants, e, |ants|)
  }

  /** The scan reads only the ants' positions, so wounds do not change any enemy's target. */
  lemma {:induction false} ScanAntsPositional(a: seq<Ant>, b: seq<Ant>, e: Enemy, n: nat)
    requires n <= |a| == |b|
    requires forall j :: 0 <= j < |a| ==> a[j].x == b[j].x && a[j].y == b[j].y
    ensures ScanAnts(a, e, n) == ScanAnts(b, e, n)
  {
    if n > 0 {
      ScanAntsPositional(a, b, e, n - 1);
      assert AntDist(a[n - 1], e) == AntDist(b[n - 1], e);
    }
  }

  /**
   * An enemy's target scan: the ant closest (Manhattan) to the enemy among
   * those closer than 40, the first one in list order on a tie; dist is that
   * ant's distance, or 40 when there is none.
   */
  method NearestAnt(ants: seq<Ant>, e: Enemy) returns (target: Option<nat>, dist: real)
    ensures (target, dist) == Target(ants, e)
    ensures target.None? <==> forall j :: 0 <= j < |ants| ==> AntDist(ants[j], e) >= TargetRange
    ensures target.None? ==> dist == TargetRange
    ensures target.Some? ==>
      && target.value < |ants|
      && dist == AntDist(ants[target.value], e) < TargetRange
      && (forall j :: 0 <= j < |ants| ==> dist <= AntDist(ants[j], e))
      && (forall j :: 0 <= j < target.value ==> dist < AntDist(ants[j], e))
  {
    target, dist := None, TargetRange;
    var k := 0;
    while k < |ants|
      invariant 0 <= k <= |ants|
      invariant (target, dist) == ScanAnts(ants, e, k)
    {
      var d := AntDist(ants[k], e);
      if d < dist {
        target, dist := Some(k), d;
      }
      k := k + 1;
    }
    ScanAntsNearest(ants, e, |ants|);
  }

  /** The first Queen in the ant list, if any. */
  function FirstQueen(ants: seq<Ant>): (r: Option<nat>)
    ensures r.None? <==> forall j :: 0 <= j < |ants| ==> ants[j].kind != Queen
    ensures r.Some? ==>
      && r.value < |ants| && ants[r.value].kind == Queen
      && forall j :: 0 <= j < r.value ==> ants[j].kind != Queen
  {
    if |ants| == 0 then None
    else if ants[0].kind == Queen then Some(0)
    else match FirstQueen(ants[1..])
      case None => None
      case Some(k) => Some(k + 1)
  }

  /** The NEST search: the first Queen's tile, or the default nest tile when there is no Queen. */
  function NestPoint(ants: seq<Ant>): (p: Pos)
    ensures (forall j :: 0 <= j < |ants| ==> ants[j].kind != Queen) ==> p == Pos(NestX, NestY)
    ensures (exists j :: 0 <= j < |ants| && ants[j].kind == Queen) ==>
      exists q :: && 0 <= q < |ants| && ants[q].kind == Queen && p == Pos(ants[q].x, ants[q].y)
                  && forall j :: 0 <= j < q ==> ants[j].kind != Queen
  {
    match FirstQueen(ants)
    case Some(q) => Pos(ants[q].x, ants[q].y)
    case None => Pos(NestX, NestY)
  }

  /** The first enemy standing exactly at (x, y), if any. */
  function FirstEnemyAt(es: seq<Enemy>, x: real, y: real): (r: Option<nat>)
    ensures r.None? <==> forall j :: 0 <= j < |es| ==> es[j].x != x || es[j].y != y
    ensures r.Some? ==>
      && r.value < |es| && es[r.value].x == x && es[r.value].y == y
      && forall j :: 0 <= j < r.value ==> es[j].x != x || es[j].y != y
  {
    if |es| == 0 then None
    else if es[0].x == x && es[0].y == y then Some(0)
    else match FirstEnemyAt(es[1..], x, y)
      case None => None
      case Some(k) => Some(k + 1)
  }

  /** Position of a pheromone neighbour in the gradient scan (rows top to bottom, then columns left to right). */
  function ScanOrder(dx: int, dy: int): int {
    (dy + 1) * 3 + (dx + 1)
  }

  /** (dx, dy) is one of the eight neighbour offsets and (x + dx, y + dy) is inside the field. */
  predicate IsNeighbour(x: int, y: int, dx: int, dy: int) {
    -1 <= dx <= 1 && -1 <= dy <= 1 && !(dx == 0 && dy == 0) && InBounds(x + dx, y + dy)
  }

  /**
   * best and dir are the outcome of the gradient scan around (x, y): best is
   * the strongest intensity among the in-bounds neighbours (0 when none is
   * positive, and then dir is (0, 0)), and dir is the offset of the first
   * neighbour in scan order that holds it.
   */
  ghost predicate IsGradient(p: array2<real>, x: int, y: int, best: real, dir: Pos)
    requires IsGrid(p)
    reads p
  {
    && best >= 0.0
    && (forall dx, dy :: IsNeighbour(x, y, dx, dy) ==> p[y + dy, x + dx] <= best)
    && (best == 0.0 ==> dir == Pos(0, 0))
    && (best > 0.0 ==>
          && IsNeighbour(x, y, dir.x, dir.y) && p[y + dir.y, x + dir.x] == best
          && forall dx, dy :: IsNeighbour(x, y, dx, dy) && ScanOrder(dx, dy) < ScanOrder(dir.x, dir.y) ==> p[y + dy, x + dx] < best)
  }

  /**
   * The soldiers' gradient scan: the strongest intensity among the in-bounds
   * neighbours of (x, y) and the offset of the first neighbour (in scan
   * order) that has it; intensity 0 and offset (0, 0) when no neighbour is
   * positive.
   */
  method StrongestNeighbour(p: array2<real>, x: int, y: int) returns (best: real, dir: Pos)
    requires IsGrid(p)
    ensures IsGradient(p, x, y, best, dir)
  {
    best, dir := 0.0, Pos(0, 0);
    var dy := -1;
    while dy <= 1
      invariant -1 <= dy <= 2
      invariant best >= 0.0
      invariant forall ex, ey :: IsNeighbour(x, y, ex, ey) && ey < dy ==> p[y + ey, x + ex] <= best
      invariant best == 0.0 ==> dir == Pos(0, 0)
      invariant best > 0.0 ==> IsNeighbour(x, y, dir.x, dir.y) && dir.y < dy && p[y + dir.y, x + dir.x] == best
      invariant best > 0.0 ==> forall ex, ey :: IsNeighbour(x, y, ex, ey) && ScanOrder(ex, ey) < ScanOrder(dir.x, dir.y) ==> p[y + ey, x + ex] < best
    {
      best, dir := ScanRow(p, x, y, dy, best, dir);
      dy := dy + 1;
    }
  }

  /** One row of the gradient scan: the neighbours at row offset dy, left to right, raising the running best. */
  method ScanRow(p: array2<real>, x: int, y: int, dy: int, best0: real, dir0: Pos) returns (best: real, dir: Pos)
    requires IsGrid(p) && -1 <= dy <= 1 && best0 >= 0.0
    requires best0 == 0.0 ==> dir0 == Pos(0, 0)
    requires best0 > 0.0 ==> IsNeighbour(x, y, dir0.x, dir0.y) && dir0.y < dy && p[y + dir0.y, x + dir0.x] == best0
    ensures best >= best0
    ensures forall ex :: IsNeighbour(x, y, ex, dy) ==> p[y + dy, x + ex] <= best
    ensures best == best0 ==> dir == dir0
    ensures best > best0 ==>
      && dir.y == dy && IsNeighbour(x, y, dir.x, dy) && p[y + dy, x + dir.x] == best
      && forall ex :: IsNeighbour(x, y, ex, dy) && ex < dir.x ==> p[y + dy, x + ex] < best
  {
    best, dir := best0, dir0;
    var dx := -1;
    while dx <= 1
      invariant -1 <= dx <= 2
      invariant best >= best0
      invariant forall ex :: IsNeighbour(x, y, ex, dy) && ex < dx ==> p[y + dy, x + ex] <= best
      invariant best == best0 ==> dir == dir0
      invariant best > best0 ==>
        && dir.y == dy && dir.x < dx && IsNeighbour(x, y, dir.x, dy) && p[y + dy, x + dir.x] == best
        && forall ex :: IsNeighbour(x, y, ex, dy) && ex < dir.x ==> p[y + dy, x + ex] < best
    {
      if !(dx == 0 && dy == 0) {
        var px, py := x + dx, y + dy;
        if px >= 0 && px < Width && py >= 0 && py < Height {
          if p[py, px] > best {
            best, dir := p[py, px], Pos(dx, dy);
          }
        }
      }
      dx := dx + 1;
    }
  }
}
