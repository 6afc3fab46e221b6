/** The grid of the orthogonal maze router: geometry, grid paths and what they cost. */
module MazeGrid {
  import opened Wrappers

  datatype Point = Point(x: real, y: real)
  datatype Box = Box(x: real, y: real, w: real, h: real)
  datatype Cell = Cell(i: int, j: int)

  /** A search state: a cell and the direction of the move that led there. */
  datatype State = State(c: Cell, dir: nat)

  const TURN_PENALTY := 14.0

  function Abs(a: real): real { if a < 0.0 then -a else a }

  function Manhattan(a: Point, b: Point): real { Abs(a.x - b.x) + Abs(a.y - b.y) }

  /** The segment's bounding box overlaps the open box; touching a border does not count. */
  predicate SegmentThroughBox(a: Point, b: Point, o: Box) {
    Min(a.x, b.x) < o.x + o.w && Max(a.x, b.x) > o.x && Min(a.y, b.y) < o.y + o.h && Max(a.y, b.y) > o.y
  }

  predicate Clear(a: Point, b: Point, obstacles: seq<Box>) {
    forall o :: o in obstacles ==> !SegmentThroughBox(a, b, o)
  }

  predicate AxisAligned(a: Point, b: Point) { a.x == b.x || a.y == b.y }

  predicate Collinear(a: Point, b: Point, p: Point) {
    (a.x == b.x && b.x == p.x) || (a.y == b.y && b.y == p.y)
  }

  predicate Positive(obstacles: seq<Box>) {
    forall o :: o in obstacles ==> o.w > 0.0 && o.h > 0.0
  }

  /** A point of an axis-aligned segment. */
  ghost predicate OnSegment(p: Point, a: Point, b: Point) {
    Min(a.x, b.x) <= p.x <= Max(a.x, b.x) && Min(a.y, b.y) <= p.y <= Max(a.y, b.y)
  }

  ghost predicate InsideBox(p: Point, o: Box) { o.x < p.x < o.x + o.w && o.y < p.y < o.y + o.h }

  /** Between two bounds there is a number that also lies strictly between two others, if they leave room. */
  function Between(lo: real, hi: real, a: real, b: real): (m: real)
    requires lo <= hi && a < b && lo < b && hi > a
    ensures lo <= m <= hi && a < m < b
  {
    var low, high := Max(lo, a), Min(hi, b);
    (low + high) / 2.0
  }

  /** The test on bounding boxes is exact: an axis-aligned segment fails it when some point of it is inside the box, and
  only then; touching a border is allowed. */
  lemma SegmentHitsExactly(a: Point, b: Point, o: Box)
    requires AxisAligned(a, b) && o.w > 0.0 && o.h > 0.0
    ensures SegmentThroughBox(a, b, o) <==> exists p :: OnSegment(p, a, b) && InsideBox(p, o)
  {
    if SegmentThroughBox(a, b, o) {
      var p := Point(Between(Min(a.x, b.x), Max(a.x, b.x), o.x, o.x + o.w),
                     Between(Min(a.y, b.y), Max(a.y, b.y), o.y, o.y + o.h));
      assert OnSegment(p, a, b) && InsideBox(p, o);
    }
  }

  /** Merging two collinear clear segments leaves a clear segment, because a box with an inside cannot hide
  between them. */
  lemma MergedSegmentClear(a: Point, b: Point, p: Point, obstacles: seq<Box>)
    requires Collinear(a, b, p) && Positive(obstacles) && Clear(a, b, obstacles) && Clear(b, p, obstacles)
    ensures Clear(a, p, obstacles)
  {
    forall o | o in obstacles ensures !SegmentThroughBox(a, p, o) {
      assert !SegmentThroughBox(a, b, o) && !SegmentThroughBox(b, p, o);
    }
  }

  // ---- Sorted grid lines ----

  predicate Ascending(v: seq<real>) {
    forall i, j :: 0 <= i < j < |v| ==> v[i] < v[j]
  }

  function Insert(v: seq<real>, x: real): (r: seq<real>)
    requires Ascending(v)
    ensures Ascending(r)
    ensures forall y :: y in r <==> y in v || y == x
    ensures r != [] && (v != [] && v[0] < x ==> r[0] == v[0])
  {
    if v == [] then [x]
    else if x < v[0] then [x] + v
    else if x == v[0] then v
    else
      assert forall y :: y in v[1..] ==> v[0] < y;
      assert v == [v[0]] + v[1..];
      [v[0]] + Insert(v[1..], x)
  }

  function SortedUnique(values: seq<real>): (r: seq<real>)
    ensures Ascending(r)
    ensures forall y :: y in r <==> y in values
  {
    if values == [] then []
    else
      assert values == [values[0]] + values[1..];
      Insert(SortedUnique(values[1..]), values[0])
  }

  /** The position of a grid line; the router only looks up lines it has put in. */
  function IndexOf(v: seq<real>, x: real): (k: nat)
    requires x in v
    ensures k < |v| && v[k] == x
  {
    if v[0] == x then 0 else 1 + IndexOf(v[1..], x)
  }

  // ---- Grid paths ----

  datatype Grid = Grid(xs: seq<real>, ys: seq<real>, obstacles: seq<Box>, goal: Point)

  predicate ValidGrid(g: Grid) { Ascending(g.xs) && Ascending(g.ys) && |g.xs| > 0 && |g.ys| > 0 }

  predicate Inside(g: Grid, c: Cell) { 0 <= c.i < |g.xs| && 0 <= c.j < |g.ys| }

  function At(g: Grid, c: Cell): Point
    requires Inside(g, c)
  {
    Point(g.xs[c.i], g.ys[c.j])
  }

  predicate Adjacent(a: Cell, b: Cell) {
    (a.j == b.j && (b.i == a.i + 1 || b.i == a.i - 1)) || (a.i == b.i && (b.j == a.j + 1 || b.j == a.j - 1))
  }

  /** 1 for a horizontal move, 2 for a vertical one; 0 is kept for the start, which nothing led to. */
  function DirOf(a: Cell, b: Cell): (d: nat)
    ensures d == 1 || d == 2
  {
    if a.j == b.j then 1 else 2
  }

  predicate Legal(g: Grid, a: Cell, b: Cell) {
    Inside(g, a) && Inside(g, b) && Adjacent(a, b) && Clear(At(g, a), At(g, b), g.obstacles)
  }

  function Turn(dir: nat, next: nat): real { if dir != 0 && dir != next then TURN_PENALTY else 0.0 }

  function StepCost(g: Grid, a: Cell, dir: nat, b: Cell): real
    requires Inside(g, a) && Inside(g, b)
  {
    Manhattan(At(g, a), At(g, b)) + Turn(dir, DirOf(a, b))
  }

  predicate IsPath(g: Grid, cells: seq<Cell>) {
    cells != [] && Inside(g, cells[0]) && (|cells| > 1 ==> Legal(g, cells[0], cells[1]) && IsPath(g, cells[1..]))
  }

  /** The cost of going on along `cells` after a move in direction `dir`. */
  function CostFrom(g: Grid, cells: seq<Cell>, dir: nat): real
    requires IsPath(g, cells)
  {
    if |cells| == 1 then 0.0
    else StepCost(g, cells[0], dir, cells[1]) + CostFrom(g, cells[1..], DirOf(cells[0], cells[1]))
  }

  predicate Connects(g: Grid, cells: seq<Cell>, a: Cell, b: Cell) {
    IsPath(g, cells) && cells[0] == a && cells[|cells| - 1] == b
  }

  // ---- The plain reading of the cost: length plus a penalty for each bend ----

  function Length(points: seq<Point>): real {
    if |points| < 2 then 0.0
    else Length(points[..|points| - 1]) + Manhattan(points[|points| - 2], points[|points| - 1])
  }

  function Points(g: Grid, cells: seq<Cell>): (r: seq<Point>)
    requires IsPath(g, cells)
    ensures |r| == |cells|
    ensures forall k :: 0 <= k < |cells| ==> Inside(g, cells[k]) && r[k] == At(g, cells[k])
  {
    if |cells| == 1 then [At(g, cells[0])] else [At(g, cells[0])] + Points(g, cells[1..])
  }

  /** How often consecutive moves differ in direction. */
  function Bends(cells: seq<Cell>): nat {
    if |cells| < 3 then 0
    else Bends(cells[..|cells| - 1]) +
         if DirOf(cells[|cells| - 3], cells[|cells| - 2]) != DirOf(cells[|cells| - 2], cells[|cells| - 1]) then 1 else 0
  }

  lemma {:induction false} LengthFromFront(points: seq<Point>)
    requires |points| >= 2
    ensures Length(points) == Manhattan(points[0], points[1]) + Length(points[1..])
  {
    var n := |points|;
    if n == 2 {
      assert points[..1] == [points[0]];
    } else {
      LengthFromFront(points[..n - 1]);
      assert points[..n - 1][1..] == points[1..][..n - 2];
    }
  }

  lemma {:induction false} BendsFromFront(cells: seq<Cell>)
    requires |cells| >= 3
    ensures Bends(cells) == Bends(cells[1..]) + if DirOf(cells[0], cells[1]) != DirOf(cells[1], cells[2]) then 1 else 0
  {
    var n := |cells|;
    if n == 3 {
      assert Bends(cells[..2]) == 0 && Bends(cells[1..]) == 0;
    } else {
      BendsFromFront(cells[..n - 1]);
      assert cells[..n - 1][1..] == cells[1..][..n - 2];
    }
  }

  lemma {:induction false} CostIsLengthAndBends(g: Grid, cells: seq<Cell>, dir: nat)
    requires IsPath(g, cells)
    ensures CostFrom(g, cells, dir) ==
            Length(Points(g, cells)) + TURN_PENALTY * (Bends(cells) as real) +
            if |cells| > 1 then Turn(dir, DirOf(cells[0], cells[1])) else 0.0
  {
    if |cells| > 1 {
      CostIsLengthAndBends(g, cells[1..], DirOf(cells[0], cells[1]));
      LengthFromFront(Points(g, cells));
      assert Points(g, cells)[1..] == Points(g, cells[1..]);
      if |cells| > 2 { BendsFromFront(cells); }
    }
  }

  /** What a grid path costs the router is its length plus 14 for every bend. */
  lemma PathCost(g: Grid, cells: seq<Cell>)
    requires IsPath(g, cells)
    ensures CostFrom(g, cells, 0) == Length(Points(g, cells)) + 14.0 * (Bends(cells) as real)
  {
    CostIsLengthAndBends(g, cells, 0);
  }

  /** The heuristic never overestimates. */
  lemma {:induction false} HeuristicAdmissible(g: Grid, cells: seq<Cell>, dir: nat)
    requires IsPath(g, cells)
    requires Inside(g, cells[|cells| - 1]) && At(g, cells[|cells| - 1]) == g.goal
    ensures CostFrom(g, cells, dir) >= Manhattan(At(g, cells[0]), g.goal)
  {
    if |cells| > 1 { HeuristicAdmissible(g, cells[1..], DirOf(cells[0], cells[1])); }
  }
}
