/**
 * The pheromone field (hooks/useGameEngine.ts): the rally write of the
 * 'rally' tool and the per-tick decay. The field is an array2 of Height rows
 * and Width columns, indexed [y, x], parallel to the tile grid.
 */
module Pheromones {
  import opened Types
  import opened Progression
  import opened Grid

  /** Radius of the rally disc. */
  const RallyRadius: int := 6

  /**
   * (dx, dy) is one of the offsets the rally loops visit (both axes within
   * 6) whose Euclidean distance from the centre is at most 6.
   */
  predicate InDisc(dx: int, dy: int) {
    -RallyRadius <= dx <= RallyRadius && -RallyRadius <= dy <= RallyRadius &&
    dx * dx + dy * dy <= RallyRadius * RallyRadius
  }

  lemma SquareExceeds(d: int)
    ensures d > RallyRadius || d < -RallyRadius ==> d * d > RallyRadius * RallyRadius
    ensures d * d >= 0
  {
    if d > RallyRadius {
      assert d * d >= 7 * d;
    } else if d < -RallyRadius {
      assert d * d >= -7 * d;
    }
  }

  /** The disc is exactly the set of offsets at Euclidean distance at most 6: the scanned square adds nothing. */
  lemma DiscIsEuclidean(dx: int, dy: int)
    ensures InDisc(dx, dy) <==> dx * dx + dy * dy <= RallyRadius * RallyRadius
  {
    SquareExceeds(dx);
    SquareExceeds(dy);
  }

  /**
   * Rally at (x, y): sets the intensity to 1.0 at exactly the in-bounds
   * tiles of the disc around (x, y) and leaves every other tile as it was.
   */
  method RallyAt(p: array2<real>, x: int, y: int)
    requires IsGrid(p)
    modifies p
    ensures forall j, i :: 0 <= j < Height && 0 <= i < Width ==>
      p[j, i] == if InDisc(i - x, j - y) then 1.0 else old(p[j, i])
  {
    var r := RallyRadius;
    var dy := -r;
    while dy <= r
      invariant -r <= dy <= r + 1
      invariant forall j, i :: 0 <= j < Height && 0 <= i < Width ==>
        p[j, i] == if InDisc(i - x, j - y) && j - y < dy then 1.0 else old(p[j, i])
    {
      var dx := -r;
      while dx <= r
        invariant -r <= dx <= r + 1
        invariant forall j, i :: 0 <= j < Height && 0 <= i < Width ==>
          p[j, i] == if InDisc(i - x, j - y) && (j - y < dy || (j - y == dy && i - x < dx)) then 1.0 else old(p[j, i])
      {
        var py, px := y + dy, x + dx;
        if py >= 0 && py < Height && px >= 0 && px < Width {
          if InDisc(dx, dy) {
            p[py, px] := 1.0;
          }
        }
        dx := dx + 1;
      }
      dy := dy + 1;
    }
  }

  /** A rally at (10, 10) on an empty field marks (10, 10) and (16, 10) but not (20, 10). */
  method RallyScenario() returns (p: array2<real>)
    ensures IsGrid(p)
    ensures p[10, 10] == 1.0 && p[10, 16] == 1.0 && p[10, 20] == 0.0
  {
    p := new real[Height, Width]((j, i) => 0.0);
    RallyAt(p, 10, 10);
  }

  /** Below this intensity a decayed value is snapped to zero. */
  const Epsilon: real := 0.01

  /**
   * One tick of decay of one intensity: positive values are multiplied by
   * 0.95 and snapped to exactly 0 if that leaves them below 0.01; other
   * values are left alone.
   */
  function DecayCell(v: real): (r: real)
    ensures v <= 0.0 ==> r == v
    ensures v > 0.0 ==> 0.0 <= r < v
    ensures v > 0.0 ==> r == 0.0 || (Epsilon <= r && r == v * PheromoneDecay)
    ensures v > 0.0 && v * PheromoneDecay < Epsilon ==> r == 0.0
    ensures v > 0.0 && v * PheromoneDecay >= Epsilon ==> r == v * PheromoneDecay
    ensures 0.0 <= v <= 1.0 ==> 0.0 <= r <= 1.0
  {
    if v > 0.0 then
      var d := v * PheromoneDecay;
      if d < Epsilon then 0.0 else d
    else v
  }

  /** One tick of decay over the whole field, in place. */
  method Decay(p: array2<real>)
    requires IsGrid(p)
    modifies p
    ensures forall j, i :: 0 <= j < Height && 0 <= i < Width ==> p[j, i] == DecayCell(old(p[j, i]))
  {
    var y := 0;
    while y < Height
      invariant 0 <= y <= Height
      invariant forall j, i :: 0 <= j < Height && 0 <= i < Width ==>
        p[j, i] == if j < y then DecayCell(old(p[j, i])) else old(p[j, i])
    {
      var x := 0;
      while x < Width
        invariant 0 <= x <= Width
        invariant forall j, i :: 0 <= j < Height && 0 <= i < Width ==>
          p[j, i] == if j < y || (j == y && i < x) then DecayCell(old(p[j, i])) else old(p[j, i])
      {
        if p[y, x] > 0.0 {
          p[y, x] := p[y, x] * PheromoneDecay;
          if p[y, x] < Epsilon {
            p[y, x] := 0.0;
          }
        }
        x := x + 1;
      }
      y := y + 1;
    }
  }

  /** The intensity after n ticks of decay with no rally in between. */
  function Decayed(v: real, n: nat): real {
    if n == 0 then v else DecayCell(Decayed(v, n - 1))
  }

  /** Without a new rally write an intensity never rises and stays in [0, 1]. */
  lemma {:induction false} DecayedMonotone(v: real, n: nat)
    requires 0.0 <= v <= 1.0
    ensures 0.0 <= Decayed(v, n + 1) <= Decayed(v, n) <= 1.0
  {
    if n > 0 {
      DecayedMonotone(v, n - 1);
    }
  }

  /** After n ticks an intensity in [0, 1] is at most 0.95^n. */
  lemma {:induction false} DecayedBound(v: real, n: nat)
    requires 0.0 <= v <= 1.0
    ensures 0.0 <= Decayed(v, n) <= Pow(PheromoneDecay, n)
  {
    if n > 0 {
      DecayedBound(v, n - 1);
      var u := Decayed(v, n - 1);
      assert Pow(PheromoneDecay, n) == PheromoneDecay * Pow(PheromoneDecay, n - 1);
      assert u * PheromoneDecay <= Pow(PheromoneDecay, n - 1) * PheromoneDecay;
    }
  }

  /** 0.95^20 < 0.36. */
  lemma TwentyTicksBound()
    ensures 0.0 <= Pow(PheromoneDecay, 20) < 0.36
  {
    var b := PheromoneDecay;
    assert Pow(b, 5) == 0.7737809375;
    PowAdd(b, 5, 5);
    assert Pow(b, 10) < 0.6;
    PowAdd(b, 10, 10);
    PowNonNegative(b, 10);
    assert Pow(b, 10) * Pow(b, 10) <= 0.6 * Pow(b, 10);
  }

  lemma ScaleBound(a: real, b: real, c: real)
    requires a <= b && 0.0 <= c
    ensures a * c <= b * c
  {
  }

  /** q^5 for q in [0, 0.36) is below 0.01. */
  lemma FifthPowerBound(q: real)
    requires 0.0 <= q < 0.36
    ensures q * q * q * q * q < Epsilon
  {
    ScaleBound(q, 0.36, q);
    var q2 := q * q;
    assert 0.0 <= q2 < 0.1296;
    ScaleBound(q2, 0.1296, q2);
    ScaleBound(q2 * q2, 0.01679616, q);
    assert q * q * q * q * q == q2 * q2 * q;
  }

  /** 0.95^100 < 0.01. */
  lemma HundredTicksBelowEpsilon()
    ensures Pow(PheromoneDecay, 100) < Epsilon
  {
    var b := PheromoneDecay;
    TwentyTicksBound();
    PowAdd(b, 20, 20);
    PowAdd(b, 40, 40);
    PowAdd(b, 80, 20);
    var q := Pow(b, 20);
    assert Pow(b, 100) == q * q * q * q * q;
    FifthPowerBound(q);
  }

  /** Any intensity in [0, 1] is exactly zero after 100 ticks without a rally. */
  lemma DecayReachesZero(v: real)
    requires 0.0 <= v <= 1.0
    ensures Decayed(v, 100) == 0.0
  {
    DecayedBound(v, 99);
    HundredTicksBelowEpsilon();
    var u := Decayed(v, 99);
    assert Pow(PheromoneDecay, 100) == PheromoneDecay * Pow(PheromoneDecay, 99);
    if u > 0.0 {
      assert u * PheromoneDecay <= Pow(PheromoneDecay, 100);
    }
  }
}
