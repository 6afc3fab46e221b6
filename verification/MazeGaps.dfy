/** What the margin of the maze router's grid lets through, and what it does not. */
module MazeGaps {
  import opened Wrappers
  import opened MazeGrid
  import opened MazeLoops
  import opened MazeHanan

  ghost predicate SomeWay(start: Point, goal: Point, obstacles: seq<Box>) {
    exists way :: IsWay(way, start, goal, obstacles)
  }

  lemma {:induction false} PathIsWay(g: Grid, cells: seq<Cell>)
    requires ValidGrid(g) && IsPath(g, cells)
    ensures Inside(g, cells[|cells| - 1])
    ensures IsWay(Points(g, cells), At(g, cells[0]), At(g, cells[|cells| - 1]), g.obstacles)
  {
    if |cells| > 1 {
      PathIsWay(g, cells[1..]);
      var way := Points(g, cells);
      assert way[1..] == Points(g, cells[1..]);
      forall k | 0 <= k < |way| - 1 ensures AxisAligned(way[k], way[k + 1]) && Clear(way[k], way[k + 1], g.obstacles) {
        if k > 0 { assert way[k] == way[1..][k - 1] && way[k + 1] == way[1..][k]; }
      }
    }
  }

  lemma GrownByNothing(obstacles: seq<Box>)
    ensures Grown(obstacles, 0.0) == obstacles
  {
  }

  /** The grid joins the ends whenever some way clears the obstacles by the margin, and only if some way clears them;
  with no margin that is an equivalence. */
  lemma ReachableBetween(start: Point, goal: Point, obstacles: seq<Box>, margin: real)
    requires margin >= 0.0 && start != goal
    ensures var g := GridOf(start, goal, obstacles, margin);
            && (SomeWay(start, goal, Grown(obstacles, margin)) ==> Reachable(g, CellAt(g, start), CellAt(g, goal)))
            && (Reachable(g, CellAt(g, start), CellAt(g, goal)) ==> SomeWay(start, goal, obstacles))
    ensures margin == 0.0 ==>
              var g := GridOf(start, goal, obstacles, margin);
              Reachable(g, CellAt(g, start), CellAt(g, goal)) <==> SomeWay(start, goal, obstacles)
  {
    hide IsWay, Grown, OnVertical, OnHorizontal;
    var g := GridOf(start, goal, obstacles, margin);
    if way :| IsWay(way, start, goal, Grown(obstacles, margin)) { WayReaches(way, start, goal, obstacles, margin); }
    if cells :| Connects(g, cells, CellAt(g, start), CellAt(g, goal)) { PathIsWay(g, cells); }
    GrownByNothing(obstacles);
  }

  // ---- Round a box ----

  const BOX := Box(40.0, -20.0, 20.0, 40.0)

  const ROUND := [Point(0.0, 0.0), Point(0.0, 30.0), Point(100.0, 30.0), Point(100.0, 0.0)]

  lemma FourPoints(a: Point, b: Point, c: Point, d: Point)
    ensures Length([a, b, c, d]) == Manhattan(a, b) + Manhattan(b, c) + Manhattan(c, d)
  {
    assert [a, b, c, d][..3] == [a, b, c] && [a, b, c][..2] == [a, b] && [a, b][..1] == [a];
    assert Length([a, b]) == Manhattan(a, b);
  }

  lemma LegsClear(a: Point, b: Point, c: Point, d: Point, obstacles: seq<Box>)
    requires AxisAligned(a, b) && AxisAligned(b, c) && AxisAligned(c, d)
    requires Clear(a, b, obstacles) && Clear(b, c, obstacles) && Clear(c, d, obstacles)
    ensures IsWay([a, b, c, d], a, d, obstacles)
  {
    hide Clear;
  }

  /** With a box between the ends and a margin of 10 there is a way round it that costs 188, so the router finds one. */
  lemma RoundTheBox()
    ensures IsWay(ROUND, Point(0.0, 0.0), Point(100.0, 0.0), Grown([BOX], 10.0)) && RouteCost(ROUND) == 188.0
    ensures var g := GridOf(Point(0.0, 0.0), Point(100.0, 0.0), [BOX], 10.0);
            Reachable(g, CellAt(g, Point(0.0, 0.0)), CellAt(g, Point(100.0, 0.0)))
  {
    FourPoints(ROUND[0], ROUND[1], ROUND[2], ROUND[3]);
    assert Grown([BOX], 10.0) == [Box(30.0, -30.0, 40.0, 60.0)];
    LegsClear(ROUND[0], ROUND[1], ROUND[2], ROUND[3], Grown([BOX], 10.0));
    hide IsWay;
    WayReaches(ROUND, ROUND[0], ROUND[3], [BOX], 10.0);
  }

  // ---- A gap too narrow for the grid ----

  /** Walls all round the start, with a gap on the right between y = 10 and y = 19. */
  const WALLS := [Box(-30.0, -30.0, 10.0, 90.0), Box(-30.0, -30.0, 60.0, 10.0), Box(-30.0, 50.0, 60.0, 10.0),
                  Box(20.0, -30.0, 10.0, 40.0), Box(20.0, 19.0, 10.0, 41.0)]

  const INSIDE := Point(0.0, 0.0)
  const OUTSIDE := Point(100.0, 0.0)
  const THROUGH := [INSIDE, Point(0.0, 15.0), Point(100.0, 15.0), OUTSIDE]

  predicate Within(p: Point) { -20.0 <= p.x <= 20.0 && -20.0 <= p.y <= 50.0 }

  predicate OnWallLines(p: Point) {
    p.x in {-40.0, -10.0, 0.0, 10.0, 40.0, 100.0} && p.y in {-40.0, -10.0, 0.0, 9.0, 20.0, 40.0, 70.0}
  }

  lemma WallLines(c: Cell)
    requires Inside(GridOf(INSIDE, OUTSIDE, WALLS, 10.0), c)
    ensures OnWallLines(At(GridOf(INSIDE, OUTSIDE, WALLS, 10.0), c))
  {
    var g := GridOf(INSIDE, OUTSIDE, WALLS, 10.0);
    hide GridOf;
    var p := At(g, c);
    assert OnVertical(INSIDE, OUTSIDE, WALLS, 10.0, p.x) && OnHorizontal(INSIDE, OUTSIDE, WALLS, 10.0, p.y);
  }

  lemma StepStays(p: Point, q: Point)
    requires Within(p) && OnWallLines(p) && OnWallLines(q) && AxisAligned(p, q) && Clear(p, q, WALLS)
    ensures Within(q)
  {
    assert !SegmentThroughBox(p, q, WALLS[0]) && !SegmentThroughBox(p, q, WALLS[1]);
    assert !SegmentThroughBox(p, q, WALLS[2]) && !SegmentThroughBox(p, q, WALLS[3]);
    assert !SegmentThroughBox(p, q, WALLS[4]);
  }

  lemma {:induction false} PathStays(g: Grid, cells: seq<Cell>)
    requires g == GridOf(INSIDE, OUTSIDE, WALLS, 10.0) && IsPath(g, cells) && Within(At(g, cells[0]))
    ensures Inside(g, cells[|cells| - 1]) && Within(At(g, cells[|cells| - 1]))
  {
    if |cells| > 1 {
      hide GridOf, Within, OnWallLines, Clear;
      WallLines(cells[0]);
      WallLines(cells[1]);
      StepStays(At(g, cells[0]), At(g, cells[1]));
      PathStays(g, cells[1..]);
    }
  }

  lemma ThroughIsWay()
    ensures IsWay(THROUGH, INSIDE, OUTSIDE, WALLS)
  {
    LegsClear(THROUGH[0], THROUGH[1], THROUGH[2], THROUGH[3], WALLS);
  }

  /** A way that clears every obstacle leads out through the gap, but no line of the grid does: the router finds
  none. */
  lemma NarrowGapIsMissed()
    ensures IsWay(THROUGH, INSIDE, OUTSIDE, WALLS)
    ensures var g := GridOf(INSIDE, OUTSIDE, WALLS, 10.0); !Reachable(g, CellAt(g, INSIDE), CellAt(g, OUTSIDE))
  {
    ThroughIsWay();
    hide IsWay, GridOf;
    var g := GridOf(INSIDE, OUTSIDE, WALLS, 10.0);
    forall cells | Connects(g, cells, CellAt(g, INSIDE), CellAt(g, OUTSIDE)) ensures false {
      PathStays(g, cells);
    }
  }
}
