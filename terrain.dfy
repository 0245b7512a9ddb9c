/**
 * World generation (hooks/useGameEngine.ts, the initialisation effect): the
 * deterministic layout of sky, nest room and tunnel, then the 40 food
 * clusters and 20 buried gems whose places and sizes are random draws,
 * given here as parameters.
 */
module Terrain {
  import opened Types
  import opened Grid

  /** The layout before the random features: sky above row 15, the tunnel up column 60, the 5x5 nest room around (60, 35), dirt elsewhere. */
  function Layout(y: int, x: int): (c: Cell)
    ensures c in {Air, Nest, Dirt}
    ensures y < SurfaceDepth ==> c == Air
    ensures c == Nest ==> NestX - 2 <= x <= NestX + 2 && NestY - 2 <= y <= NestY + 2
  {
    if y < SurfaceDepth then Air
    else if x == NestX && y < NestY then Air
    else if NestY - 2 <= y <= NestY + 2 && NestX - 2 <= x <= NestX + 2 then Nest
    else Dirt
  }

  /** A food cluster: a size-by-size square of Food whose top-left tile is (x, y). */
  datatype Cluster = Cluster(x: int, y: int, size: int) {
    /** The ranges the generator draws from: x in [5, 115), y in [20, 80), size in [2, 7). */
    predicate Drawn() {
      5 <= x < Width - 5 && 20 <= y < Height && 2 <= size < 7
    }

    predicate Contains(i: int, j: int) {
      x <= i < x + size && y <= j < y + size
    }
  }

  /** A gem position the generator can draw: column in [2, 118), row in [30, 80). */
  predicate GemDrawn(p: Pos) {
    2 <= p.x < Width - 2 && 30 <= p.y < Height
  }

  /** (i, j) lies in one of the clusters. */
  predicate InSomeCluster(cs: seq<Cluster>, i: int, j: int)
    decreases |cs|
  {
    |cs| > 0 && (InSomeCluster(cs[..|cs| - 1], i, j) || cs[|cs| - 1].Contains(i, j))
  }

  /** InSomeCluster is the existential over the list. */
  lemma {:induction false} InSomeClusterExists(cs: seq<Cluster>, i: int, j: int)
    ensures InSomeCluster(cs, i, j) <==> exists m :: 0 <= m < |cs| && cs[m].Contains(i, j)
    decreases |cs|
  {
    if |cs| > 0 {
      var init := cs[..|cs| - 1];
      InSomeClusterExists(init, i, j);
      if exists m :: 0 <= m < |cs| && cs[m].Contains(i, j) {
        var m :| 0 <= m < |cs| && cs[m].Contains(i, j);
        if m < |cs| - 1 {
          assert init[m] == cs[m];
        }
      }
      if InSomeCluster(init, i, j) {
        var m :| 0 <= m < |init| && init[m].Contains(i, j);
        assert cs[m] == init[m];
      }
    }
  }

  /** The generated tile at (i, j): gems are placed last and win, then cluster Food, then the layout. */
  function Generated(cs: seq<Cluster>, gems: seq<Pos>, i: int, j: int): Cell {
    if Pos(i, j) in gems then Gem
    else if InSomeCluster(cs, i, j) then Food
    else Layout(j, i)
  }

  /** Builds the initial grid: the layout, then each cluster's in-bounds tiles as Food, then each gem. */
  method Generate(cs: seq<Cluster>, gems: seq<Pos>) returns (g: array2<Cell>)
    requires forall m :: 0 <= m < |gems| ==> GemDrawn(gems[m])
    ensures fresh(g) && IsGrid(g)
    ensures forall j, i :: 0 <= j < Height && 0 <= i < Width ==> g[j, i] == Generated(cs, gems, i, j)
  {
    g := new Cell[Height, Width](Layout);
    var k := 0;
    while k < |cs|
      invariant 0 <= k <= |cs|
      invariant forall j, i :: 0 <= j < Height && 0 <= i < Width ==>
        g[j, i] == if InSomeCluster(cs[..k], i, j) then Food else Layout(j, i)
    {
      assert cs[..k + 1][..k] == cs[..k];
      var c := cs[k];
      FillRect(g, c.x, c.y, c.x + c.size - 1, c.y + c.size - 1, Food);
      k := k + 1;
    }
    assert cs[..k] == cs;
    k := 0;
    while k < |gems|
      invariant 0 <= k <= |gems|
      invariant forall j, i :: 0 <= j < Height && 0 <= i < Width ==>
        g[j, i] == if Pos(i, j) in gems[..k] then Gem else if InSomeCluster(cs, i, j) then Food else Layout(j, i)
    {
      assert gems[..k + 1] == gems[..k] + [gems[k]];
      g[gems[k].y, gems[k].x] := Gem;
      k := k + 1;
    }
    assert gems[..k] == gems;
  }
}
