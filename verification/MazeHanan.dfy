/** The grid the maze router searches, and why it is enough: no way through the plane is cheaper than all of those on
it.

Whatever clears the obstacles by the margin can be slid onto the grid's lines without getting longer: coordinates off
the lines are moved to a neighbour, one after the other, on the side where the length does not grow. */
module MazeHanan {
  import opened Wrappers
  import opened MazeGrid
  import opened MazeLoops

  // ---- The lines ----

  function XLines(start: Point, goal: Point, obstacles: seq<Box>, margin: real): seq<real> {
    if obstacles == [] then [start.x, goal.x]
    else
      XLines(start, goal, obstacles[1..], margin) + [obstacles[0].x - margin, obstacles[0].x + obstacles[0].w + margin]
  }

  function YLines(start: Point, goal: Point, obstacles: seq<Box>, margin: real): seq<real> {
    if obstacles == [] then [start.y, goal.y]
    else
      YLines(start, goal, obstacles[1..], margin) + [obstacles[0].y - margin, obstacles[0].y + obstacles[0].h + margin]
  }

  ghost predicate OnVertical(start: Point, goal: Point, obstacles: seq<Box>, margin: real, x: real) {
    x == start.x || x == goal.x || exists o :: o in obstacles && (x == o.x - margin || x == o.x + o.w + margin)
  }

  ghost predicate OnHorizontal(start: Point, goal: Point, obstacles: seq<Box>, margin: real, y: real) {
    y == start.y || y == goal.y || exists o :: o in obstacles && (y == o.y - margin || y == o.y + o.h + margin)
  }

  lemma {:induction false} LinesAre(start: Point, goal: Point, obstacles: seq<Box>, margin: real)
    ensures forall x :: x in XLines(start, goal, obstacles, margin) <==> OnVertical(start, goal, obstacles, margin, x)
    ensures forall y :: y in YLines(start, goal, obstacles, margin) <==> OnHorizontal(start, goal, obstacles, margin, y)
  {
    if obstacles != [] {
      LinesAre(start, goal, obstacles[1..], margin);
      assert obstacles == [obstacles[0]] + obstacles[1..];
      forall x ensures x in XLines(start, goal, obstacles, margin) <==> OnVertical(start, goal, obstacles, margin, x) {
        assert OnVertical(start, goal, obstacles, margin, x) <==>
               OnVertical(start, goal, obstacles[1..], margin, x) || x == obstacles[0].x - margin ||
               x == obstacles[0].x + obstacles[0].w + margin;
      }
      forall y ensures y in YLines(start, goal, obstacles, margin) <==>
          OnHorizontal(start, goal, obstacles, margin, y) {
        assert OnHorizontal(start, goal, obstacles, margin, y) <==>
               OnHorizontal(start, goal, obstacles[1..], margin, y) || y == obstacles[0].y - margin ||
               y == obstacles[0].y + obstacles[0].h + margin;
      }
    }
  }

  /** The Hanan grid: lines through both ends and at every obstacle border, `margin` away from it, and no others. */
  function GridOf(start: Point, goal: Point, obstacles: seq<Box>, margin: real): (g: Grid)
    ensures ValidGrid(g) && g.obstacles == obstacles && g.goal == goal
    ensures start.x in g.xs && start.y in g.ys && goal.x in g.xs && goal.y in g.ys
    ensures forall x :: x in g.xs <==> OnVertical(start, goal, obstacles, margin, x)
    ensures forall y :: y in g.ys <==> OnHorizontal(start, goal, obstacles, margin, y)
  {
    LinesAre(start, goal, obstacles, margin);
    Grid(SortedUnique(XLines(start, goal, obstacles, margin)), SortedUnique(YLines(start, goal, obstacles, margin)),
         obstacles, goal)
  }

  function CellAt(g: Grid, p: Point): (c: Cell)
    requires p.x in g.xs && p.y in g.ys
    ensures Inside(g, c) && At(g, c) == p
  {
    Cell(IndexOf(g.xs, p.x), IndexOf(g.ys, p.y))
  }

  ghost predicate Reachable(g: Grid, a: Cell, b: Cell) {
    exists cells :: Connects(g, cells, a, b)
  }

  // ---- Sliding coordinates onto lines ----

  /** How far one goes back and forth in all. */
  function Travel(v: seq<real>): real {
    if |v| < 2 then 0.0 else Travel(v[..|v| - 1]) + Abs(v[|v| - 1] - v[|v| - 2])
  }

  function Slid(v: seq<real>, b: real, t: real): (r: seq<real>)
    ensures |r| == |v| && forall k :: 0 <= k < |v| ==> r[k] == if v[k] == b then t else v[k]
  {
    seq(|v|, k requires 0 <= k < |v| => if v[k] == b then t else v[k])
  }

  lemma SlidPrefix(v: seq<real>, b: real, t: real)
    requires v != []
    ensures Slid(v, b, t)[..|v| - 1] == Slid(v[..|v| - 1], b, t)
  {
  }

  ghost predicate NoneBetween(v: seq<real>, lo: real, b: real, hi: real) {
    forall k :: 0 <= k < |v| ==> v[k] <= lo || v[k] == b || v[k] >= hi
  }

  /** `t` divides the way from `l` to `h` as `x` to `y`. */
  ghost predicate Balanced(x: real, y: real, t: real, l: real, h: real) { (x + y) * t == y * l + x * h }

  lemma BalancedAdds(x: real, y: real, t: real, l: real, h: real, dt: real, dl: real, dh: real)
    requires Balanced(x, y, t, l, h) && Balanced(x, y, dt, dl, dh)
    ensures Balanced(x, y, t + dt, l + dl, h + dh)
  {
  }

  lemma NotBothMore(x: real, y: real, t: real, l: real, h: real)
    requires x > 0.0 && y > 0.0 && Balanced(x, y, t, l, h)
    ensures l <= t || h <= t
  {
    if l > t && h > t {
      Product(y, l - t);
      Product(x, h - t);
    }
  }

  lemma Product(a: real, b: real)
    requires a > 0.0 && b > 0.0
    ensures a * b > 0.0
  {
  }

  function Shifted(x: real, b: real, t: real): real { if x == b then t else x }

  lemma LegIsBalanced(lo: real, b: real, hi: real, p: real, q: real)
    requires lo < b < hi && (p <= lo || p == b || p >= hi) && (q <= lo || q == b || q >= hi)
    ensures Balanced(b - lo, hi - b, Abs(p - q), Abs(Shifted(p, b, lo) - Shifted(q, b, lo)),
                     Abs(Shifted(p, b, hi) - Shifted(q, b, hi)))
  {
  }

  lemma TravelStep(v: seq<real>, b: real, t: real)
    requires |v| >= 2
    ensures var n := |v| - 1;
            Travel(Slid(v, b, t)) == Travel(Slid(v[..n], b, t)) + Abs(Shifted(v[n], b, t) - Shifted(v[n - 1], b, t))
  {
    SlidPrefix(v, b, t);
  }

  /** Between its neighbours, moving a coordinate changes the travel linearly. */
  lemma {:induction false} TravelIsBalanced(v: seq<real>, lo: real, b: real, hi: real)
    requires lo < b < hi && NoneBetween(v, lo, b, hi)
    ensures Balanced(b - lo, hi - b, Travel(v), Travel(Slid(v, b, lo)), Travel(Slid(v, b, hi)))
  {
    if |v| >= 2 {
      hide Balanced, Slid, Abs, Shifted;
      var n := |v| - 1;
      TravelIsBalanced(v[..n], lo, b, hi);
      TravelStep(v, b, lo);
      TravelStep(v, b, hi);
      LegIsBalanced(lo, b, hi, v[n], v[n - 1]);
      BalancedAdds(b - lo, hi - b, Travel(v[..n]), Travel(Slid(v[..n], b, lo)), Travel(Slid(v[..n], b, hi)),
                   Abs(v[n] - v[n - 1]), Abs(Shifted(v[n], b, lo) - Shifted(v[n - 1], b, lo)),
                   Abs(Shifted(v[n], b, hi) - Shifted(v[n - 1], b, hi)));
    }
  }

  lemma OneSideIsNoLonger(v: seq<real>, lo: real, b: real, hi: real)
    requires lo < b < hi && NoneBetween(v, lo, b, hi)
    ensures Travel(Slid(v, b, lo)) <= Travel(v) || Travel(Slid(v, b, hi)) <= Travel(v)
  {
    hide Travel, Slid, Balanced;
    TravelIsBalanced(v, lo, b, hi);
    NotBothMore(b - lo, hi - b, Travel(v), Travel(Slid(v, b, lo)), Travel(Slid(v, b, hi)));
  }

  /** All other coordinates are above `t`, or all are below it. */
  ghost predicate Inward(v: seq<real>, b: real, t: real) {
    forall k :: 0 <= k < |v| && v[k] != b ==> if b <= t then t <= v[k] else t >= v[k]
  }

  lemma {:induction false} InwardIsNoLonger(v: seq<real>, b: real, t: real)
    requires Inward(v, b, t)
    ensures Travel(Slid(v, b, t)) <= Travel(v)
  {
    if |v| >= 2 {
      SlidPrefix(v, b, t);
      InwardIsNoLonger(v[..|v| - 1], b, t);
    }
  }

  /** `r` is `v` moved without crossing a line, leaving what is on a line and keeping equal coordinates equal. */
  ghost predicate Respects(lines: seq<real>, v: seq<real>, r: seq<real>) {
    && |r| == |v|
    && (forall k, l :: 0 <= k < |v| && l in lines ==> (v[k] <= l ==> r[k] <= l) && (v[k] >= l ==> r[k] >= l))
    && (forall i, j :: 0 <= i < j < |v| && v[i] == v[j] ==> r[i] == r[j])
  }

  ghost function OffLines(lines: seq<real>, v: seq<real>): set<real> { set x | x in v && x !in lines }

  /** A coordinate off the lines moves to one of its neighbours. */
  lemma SlideOne(lines: seq<real>, v: seq<real>, b: real) returns (r: seq<real>)
    requires lines != [] && b in v && b !in lines
    ensures Respects(lines, v, r) && Travel(r) <= Travel(v) && OffLines(lines, r) < OffLines(lines, v)
  {
    var all := SortedUnique(lines + v);
    assert b in lines + v && lines[0] in lines + v;
    var k :| 0 <= k < |all| && all[k] == b;
    if k == 0 {
      assert |all| > 1;
      var t := all[1];
      forall i | 0 <= i < |v| && v[i] != b ensures t <= v[i] { NeighbourAbove(all, 0, v[i]); }
      InwardIsNoLonger(v, b, t);
      r := MoveTo(lines, v, b, t, all, k);
    } else if k == |all| - 1 {
      var t := all[k - 1];
      forall i | 0 <= i < |v| && v[i] != b ensures t >= v[i] { NeighbourAbove(all, k - 1, v[i]); }
      InwardIsNoLonger(v, b, t);
      r := MoveTo(lines, v, b, t, all, k);
    } else {
      var lo, hi := all[k - 1], all[k + 1];
      forall i | 0 <= i < |v| ensures v[i] <= lo || v[i] == b || v[i] >= hi {
        NeighbourAbove(all, k - 1, v[i]);
        NeighbourAbove(all, k, v[i]);
      }
      OneSideIsNoLonger(v, lo, b, hi);
      r := MoveTo(lines, v, b, if Travel(Slid(v, b, lo)) <= Travel(v) then lo else hi, all, k);
    }
  }

  lemma NeighbourAbove(all: seq<real>, k: nat, x: real)
    requires Ascending(all) && k + 1 < |all| && x in all
    ensures x <= all[k] || x >= all[k + 1]
  {
    var m :| 0 <= m < |all| && all[m] == x;
  }

  lemma MoveTo(lines: seq<real>, v: seq<real>, b: real, t: real, all: seq<real>, k: nat) returns (r: seq<real>)
    requires Ascending(all) && k < |all| && all[k] == b && b in v && b !in lines
    requires forall x :: x in all <==> x in lines + v
    requires (k > 0 && t == all[k - 1]) || (k + 1 < |all| && t == all[k + 1])
    requires Travel(Slid(v, b, t)) <= Travel(v)
    ensures Respects(lines, v, r) && Travel(r) <= Travel(v) && OffLines(lines, r) < OffLines(lines, v)
  {
    r := Slid(v, b, t);
    assert t in all && t != b;
    forall i, l | 0 <= i < |v| && l in lines ensures (v[i] <= l ==> r[i] <= l) && (v[i] >= l ==> r[i] >= l) {
      assert l in all;
      if k > 0 { NeighbourAbove(all, k - 1, l); }
      if k + 1 < |all| { NeighbourAbove(all, k, l); }
    }
    forall x | x in OffLines(lines, r) ensures x in OffLines(lines, v) && x != b {
      var i :| 0 <= i < |r| && r[i] == x;
      if v[i] == b { assert t in lines + v; }
    }
    assert b in OffLines(lines, v) && b !in OffLines(lines, r);
  }

  lemma RespectsBoth(lines: seq<real>, u: seq<real>, v: seq<real>, w: seq<real>)
    requires Respects(lines, u, v) && Respects(lines, v, w)
    ensures Respects(lines, u, w)
  {
  }

  /** Coordinates can be put on lines without crossing any and without travelling further. */
  lemma {:induction false} SlideAll(lines: seq<real>, v: seq<real>) returns (r: seq<real>)
    requires lines != []
    ensures Respects(lines, v, r) && Travel(r) <= Travel(v) && forall x :: x in r ==> x in lines
    decreases |OffLines(lines, v)|
  {
    if b :| b in OffLines(lines, v) {
      var next := SlideOne(lines, v, b);
      StrictSubset(OffLines(lines, next), OffLines(lines, v));
      r := SlideAll(lines, next);
      RespectsBoth(lines, v, next, r);
    } else {
      r := v;
      forall x | x in r ensures x in lines { assert x !in OffLines(lines, v); }
    }
  }

  lemma StrictSubset(a: set<real>, b: set<real>)
    requires a < b
    ensures |a| < |b|
  {
    assert |b| == |a| + |b - a| by { assert a + (b - a) == b; }
    assert b - a != {};
  }

  // ---- Ways through the plane ----

  /** The obstacles with the margin around them. */
  function Grown(obstacles: seq<Box>, margin: real): (r: seq<Box>)
    ensures |r| == |obstacles|
    ensures forall k :: 0 <= k < |r| ==>
              var o := obstacles[k];
              r[k] == Box(o.x - margin, o.y - margin, o.w + 2.0 * margin, o.h + 2.0 * margin)
  {
    seq(|obstacles|, k requires 0 <= k < |obstacles| =>
      var o := obstacles[k];
      Box(o.x - margin, o.y - margin, o.w + 2.0 * margin, o.h + 2.0 * margin))
  }

  /** Any axis-aligned way through the plane that clears the obstacles, on grid lines or not. */
  ghost predicate IsWay(way: seq<Point>, start: Point, goal: Point, obstacles: seq<Box>) {
    && way != [] && way[0] == start && way[|way| - 1] == goal
    && forall k :: 0 <= k < |way| - 1 ==> AxisAligned(way[k], way[k + 1]) && Clear(way[k], way[k + 1], obstacles)
  }

  function Xs(way: seq<Point>): (r: seq<real>)
    ensures |r| == |way| && forall k :: 0 <= k < |way| ==> r[k] == way[k].x
  {
    seq(|way|, k requires 0 <= k < |way| => way[k].x)
  }

  function Ys(way: seq<Point>): (r: seq<real>)
    ensures |r| == |way| && forall k :: 0 <= k < |way| ==> r[k] == way[k].y
  {
    seq(|way|, k requires 0 <= k < |way| => way[k].y)
  }

  lemma {:induction false} LengthIsTravel(way: seq<Point>)
    ensures Length(way) == Travel(Xs(way)) + Travel(Ys(way))
  {
    if |way| >= 2 {
      var n := |way| - 1;
      LengthIsTravel(way[..n]);
      assert Xs(way)[..n] == Xs(way[..n]) && Ys(way)[..n] == Ys(way[..n]);
    }
  }

  ghost predicate OnGrid(g: Grid, way: seq<Point>) {
    forall k :: 0 <= k < |way| ==> way[k].x in g.xs && way[k].y in g.ys
  }

  /** What keeps clear of a box whose borders are lines still does after the slide. */
  lemma StillClear(xs: seq<real>, ys: seq<real>, a: Point, b: Point, a': Point, b': Point, o: Box)
    requires o.x in xs && o.x + o.w in xs && o.y in ys && o.y + o.h in ys
    requires Respects(xs, [a.x, b.x], [a'.x, b'.x]) && Respects(ys, [a.y, b.y], [a'.y, b'.y])
    requires !SegmentThroughBox(a, b, o)
    ensures !SegmentThroughBox(a', b', o)
  {
    assert [a.x, b.x][0] == a.x && [a.x, b.x][1] == b.x && [a'.x, b'.x][0] == a'.x && [a'.x, b'.x][1] == b'.x;
    assert [a.y, b.y][0] == a.y && [a.y, b.y][1] == b.y && [a'.y, b'.y][0] == a'.y && [a'.y, b'.y][1] == b'.y;
  }

  lemma RespectsLeg(lines: seq<real>, v: seq<real>, r: seq<real>, k: nat)
    requires Respects(lines, v, r) && k + 1 < |v|
    ensures Respects(lines, [v[k], v[k + 1]], [r[k], r[k + 1]])
    ensures v[k] == v[k + 1] ==> r[k] == r[k + 1]
  {
  }

  lemma GrownBorders(start: Point, goal: Point, obstacles: seq<Box>, margin: real, k: nat)
    requires k < |obstacles|
    ensures var g, o := GridOf(start, goal, obstacles, margin), Grown(obstacles, margin)[k];
            o.x in g.xs && o.x + o.w in g.xs && o.y in g.ys && o.y + o.h in g.ys
  {
    var o := obstacles[k];
    assert OnVertical(start, goal, obstacles, margin, o.x - margin);
    assert OnVertical(start, goal, obstacles, margin, o.x + o.w + margin);
    assert OnHorizontal(start, goal, obstacles, margin, o.y - margin);
    assert OnHorizontal(start, goal, obstacles, margin, o.y + o.h + margin);
  }

  lemma LegStillClear(start: Point, goal: Point, obstacles: seq<Box>, margin: real, a: Point, b: Point, a': Point,
                      b': Point)
    requires var g := GridOf(start, goal, obstacles, margin);
             Respects(g.xs, [a.x, b.x], [a'.x, b'.x]) && Respects(g.ys, [a.y, b.y], [a'.y, b'.y])
    requires Clear(a, b, Grown(obstacles, margin))
    ensures Clear(a', b', Grown(obstacles, margin))
  {
    hide GridOf, Respects, SegmentThroughBox;
    var g, grown := GridOf(start, goal, obstacles, margin), Grown(obstacles, margin);
    forall o | o in grown ensures !SegmentThroughBox(a', b', o) {
      var k :| 0 <= k < |grown| && grown[k] == o;
      GrownBorders(start, goal, obstacles, margin, k);
      StillClear(g.xs, g.ys, a, b, a', b', o);
    }
  }

  function Zipped(xs: seq<real>, ys: seq<real>): (r: seq<Point>)
    requires |xs| == |ys|
    ensures Xs(r) == xs && Ys(r) == ys
  {
    seq(|xs|, k requires 0 <= k < |xs| => Point(xs[k], ys[k]))
  }

  /** A way that clears the grown obstacles can be slid onto the grid without getting longer. */
  lemma SlideWay(way: seq<Point>, start: Point, goal: Point, obstacles: seq<Box>, margin: real) returns (r: seq<Point>)
    requires IsWay(way, start, goal, Grown(obstacles, margin))
    ensures IsWay(r, start, goal, Grown(obstacles, margin)) && OnGrid(GridOf(start, goal, obstacles, margin), r)
    ensures |r| == |way| && Length(r) <= Length(way)
  {
    hide Clear, Travel, Length, Respects, Grown, OnVertical, OnHorizontal;
    var g := GridOf(start, goal, obstacles, margin);
    var xs := SlideAll(g.xs, Xs(way));
    var ys := SlideAll(g.ys, Ys(way));
    RespectsLength(g.xs, Xs(way), xs);
    RespectsLength(g.ys, Ys(way), ys);
    r := Zipped(xs, ys);
    LengthIsTravel(way);
    LengthIsTravel(r);
    ZippedOnGrid(g, xs, ys);
    forall k | 0 <= k < |r| - 1
      ensures AxisAligned(r[k], r[k + 1]) && Clear(r[k], r[k + 1], Grown(obstacles, margin))
    {
      LegSlides(start, goal, obstacles, margin, way, r, k);
    }
    EndsStay(g, way, r, start, goal);
  }

  lemma RespectsLength(lines: seq<real>, v: seq<real>, r: seq<real>)
    requires Respects(lines, v, r)
    ensures |r| == |v|
  {
  }

  lemma ZippedOnGrid(g: Grid, xs: seq<real>, ys: seq<real>)
    requires |xs| == |ys| && (forall x :: x in xs ==> x in g.xs) && (forall y :: y in ys ==> y in g.ys)
    ensures OnGrid(g, Zipped(xs, ys))
  {
    var r := Zipped(xs, ys);
    forall k | 0 <= k < |r| ensures r[k].x in g.xs && r[k].y in g.ys {
      assert r[k].x == Xs(r)[k] && r[k].y == Ys(r)[k];
    }
  }

  lemma LegSlides(start: Point, goal: Point, obstacles: seq<Box>, margin: real, way: seq<Point>, r: seq<Point>, k: nat)
    requires |r| == |way| && k + 1 < |way|
    requires var g := GridOf(start, goal, obstacles, margin);
             Respects(g.xs, Xs(way), Xs(r)) && Respects(g.ys, Ys(way), Ys(r))
    requires AxisAligned(way[k], way[k + 1]) && Clear(way[k], way[k + 1], Grown(obstacles, margin))
    ensures AxisAligned(r[k], r[k + 1]) && Clear(r[k], r[k + 1], Grown(obstacles, margin))
  {
    hide Clear, Respects, GridOf;
    var g := GridOf(start, goal, obstacles, margin);
    RespectsLeg(g.xs, Xs(way), Xs(r), k);
    RespectsLeg(g.ys, Ys(way), Ys(r), k);
    LegStillClear(start, goal, obstacles, margin, way[k], way[k + 1], r[k], r[k + 1]);
  }

  lemma EndsStay(g: Grid, way: seq<Point>, r: seq<Point>, start: Point, goal: Point)
    requires way != [] && |r| == |way| && way[0] == start && way[|way| - 1] == goal
    requires start.x in g.xs && start.y in g.ys && goal.x in g.xs && goal.y in g.ys
    requires Respects(g.xs, Xs(way), Xs(r)) && Respects(g.ys, Ys(way), Ys(r))
    ensures r[0] == start && r[|r| - 1] == goal
  {
    assert Xs(way)[0] == start.x && Ys(way)[0] == start.y;
    assert Xs(way)[|way| - 1] == goal.x && Ys(way)[|way| - 1] == goal.y;
    assert Xs(r)[0] == r[0].x && Xs(r)[|r| - 1] == r[|r| - 1].x;
  }

  lemma GrownHolds(obstacles: seq<Box>, margin: real, a: Point, b: Point)
    requires margin >= 0.0 && Clear(a, b, Grown(obstacles, margin))
    ensures Clear(a, b, obstacles)
  {
    var grown := Grown(obstacles, margin);
    forall o | o in obstacles ensures !SegmentThroughBox(a, b, o) {
      var k :| 0 <= k < |obstacles| && obstacles[k] == o;
      assert grown[k] in grown && !SegmentThroughBox(a, b, grown[k]);
    }
  }

  // ---- From a way on the grid to a path of the search ----

  /** `tail` goes on from `b`; the run from `a` to `b` before it costs its length and at most one turn. */
  lemma {:induction false} RunBefore(g: Grid, a: Cell, b: Cell, dir: nat, tail: seq<Cell>, goal: Cell)
    returns (cells: seq<Cell>)
    requires ValidGrid(g) && Inside(g, a) && Inside(g, b) && RunsIn(a, b, dir)
    requires Clear(At(g, a), At(g, b), g.obstacles) && Connects(g, tail, b, goal)
    ensures Connects(g, cells, a, goal)
    ensures forall d: nat ::
              CostFrom(g, cells, d) <= Manhattan(At(g, a), At(g, b)) + Turn(d, dir) + CostFrom(g, tail, dir)
    decreases Distance(a, b)
  {
    if a == b {
      cells := tail;
      forall d: nat ensures CostFrom(g, cells, d) <= Turn(d, dir) + CostFrom(g, tail, dir) {
        TurnOnce(g, tail, d, dir);
      }
    } else {
      var next := Toward(a, b);
      NextOnRun(g, a, b, dir);
      var rest := RunBefore(g, next, b, dir, tail, goal);
      cells := [a] + rest;
      assert cells[1..] == rest && rest[0] == next;
      forall d: nat
        ensures CostFrom(g, cells, d) <= Manhattan(At(g, a), At(g, b)) + Turn(d, dir) + CostFrom(g, tail, dir)
      {
        assert CostFrom(g, cells, d) == StepCost(g, a, d, next) + CostFrom(g, rest, dir);
        assert CostFrom(g, rest, dir) <= Manhattan(At(g, next), At(g, b)) + Turn(dir, dir) + CostFrom(g, tail, dir);
      }
    }
  }

  predicate RunsIn(a: Cell, b: Cell, dir: nat) { (dir == 1 && a.j == b.j) || (dir == 2 && a.i == b.i) }

  function Distance(a: Cell, b: Cell): nat {
    (if a.i < b.i then b.i - a.i else a.i - b.i) + (if a.j < b.j then b.j - a.j else a.j - b.j)
  }

  function Toward(a: Cell, b: Cell): Cell {
    if a.i < b.i then Cell(a.i + 1, a.j) else if a.i > b.i then Cell(a.i - 1, a.j)
    else if a.j < b.j then Cell(a.i, a.j + 1) else Cell(a.i, a.j - 1)
  }

  lemma NextOnRun(g: Grid, a: Cell, b: Cell, dir: nat)
    requires ValidGrid(g) && Inside(g, a) && Inside(g, b) && a != b && RunsIn(a, b, dir)
    requires Clear(At(g, a), At(g, b), g.obstacles)
    ensures var next := Toward(a, b);
            && Legal(g, a, next) && Distance(next, b) < Distance(a, b) && RunsIn(next, b, dir)
            && Clear(At(g, next), At(g, b), g.obstacles) && DirOf(a, next) == dir
            && Manhattan(At(g, a), At(g, b)) == Manhattan(At(g, a), At(g, next)) + Manhattan(At(g, next), At(g, b))
  {
    var next := Toward(a, b);
    var p, q, r := At(g, a), At(g, next), At(g, b);
    assert Min(p.x, r.x) <= q.x <= Max(p.x, r.x) && Min(p.y, r.y) <= q.y <= Max(p.y, r.y);
    forall o | o in g.obstacles ensures !SegmentThroughBox(p, q, o) && !SegmentThroughBox(q, r, o) {
      assert !SegmentThroughBox(p, r, o);
    }
  }

  lemma {:induction false} WayIsPath(g: Grid, way: seq<Point>, goal: Point) returns (cells: seq<Cell>)
    requires ValidGrid(g) && way != [] && OnGrid(g, way) && way[|way| - 1] == goal
    requires forall k :: 0 <= k < |way| - 1 ==>
               AxisAligned(way[k], way[k + 1]) && Clear(way[k], way[k + 1], g.obstacles)
    ensures OnGrid(g, [way[0], goal]) && Connects(g, cells, CellAt(g, way[0]), CellAt(g, goal))
    ensures |way| == 1 ==> forall d: nat :: CostFrom(g, cells, d) == 0.0
    ensures |way| > 1 ==> forall d: nat ::
              CostFrom(g, cells, d) <=
              Length(way) + TURN_PENALTY * ((|way| - 2) as real) + if d == 0 then 0.0 else TURN_PENALTY
  {
    if |way| == 1 {
      cells := [CellAt(g, goal)];
    } else {
      var tail := WayIsPath(g, way[1..], goal);
      var a, b := CellAt(g, way[0]), CellAt(g, way[1]);
      SameLine(g, way[0], way[1]);
      cells := RunBefore(g, a, b, if a.j == b.j then 1 else 2, tail, CellAt(g, goal));
      LengthFromFront(way);
    }
  }

  lemma SameLine(g: Grid, p: Point, q: Point)
    requires p.x in g.xs && p.y in g.ys && q.x in g.xs && q.y in g.ys
    requires AxisAligned(p, q)
    ensures CellAt(g, p).i == CellAt(g, q).i || CellAt(g, p).j == CellAt(g, q).j
  {
  }

  /** What a route costs as drawn: its length plus 14 for each inner vertex. */
  function RouteCost(route: seq<Point>): real { Length(route) + TURN_PENALTY * ((|route| - 2) as real) }

  /** For every way that clears the obstacles by the margin there is a path on the grid that costs no more. */
  lemma GridIsEnough(way: seq<Point>, start: Point, goal: Point, obstacles: seq<Box>, margin: real)
    returns (cells: seq<Cell>)
    requires margin >= 0.0 && |way| > 1 && IsWay(way, start, goal, Grown(obstacles, margin))
    ensures var g := GridOf(start, goal, obstacles, margin);
            && Connects(g, cells, CellAt(g, start), CellAt(g, goal))
            && CostFrom(g, cells, 0) <= RouteCost(way)
  {
    var r := SlideWay(way, start, goal, obstacles, margin);
    forall k | 0 <= k < |r| - 1 ensures Clear(r[k], r[k + 1], obstacles) {
      GrownHolds(obstacles, margin, r[k], r[k + 1]);
    }
    hide Clear;
    cells := WayIsPath(GridOf(start, goal, obstacles, margin), r, goal);
  }

  lemma WayReaches(way: seq<Point>, start: Point, goal: Point, obstacles: seq<Box>, margin: real)
    requires margin >= 0.0 && start != goal && IsWay(way, start, goal, Grown(obstacles, margin))
    ensures var g := GridOf(start, goal, obstacles, margin); Reachable(g, CellAt(g, start), CellAt(g, goal))
  {
    var cells := GridIsEnough(way, start, goal, obstacles, margin);
  }
}
