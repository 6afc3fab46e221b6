/** A cheapest grid path goes nowhere twice: cutting out a loop makes it cheaper. */
module MazeLoops {
  import opened Wrappers
  import opened MazeGrid

  lemma MoveCosts(g: Grid, a: Cell, dir: nat, b: Cell)
    requires ValidGrid(g) && Legal(g, a, b)
    ensures StepCost(g, a, dir, b) > Turn(dir, DirOf(a, b))
  {
  }

  /** Having come from another direction costs one turn at most. */
  lemma TurnOnce(g: Grid, cells: seq<Cell>, dir: nat, other: nat)
    requires IsPath(g, cells) && other != 0
    ensures CostFrom(g, cells, dir) <= CostFrom(g, cells, other) + Turn(dir, other)
  {
  }

  /** The first `j` moves cost more than one turn into the direction they end in. */
  lemma {:induction false} DropPrefix(g: Grid, cells: seq<Cell>, dir: nat, j: nat)
    requires ValidGrid(g) && IsPath(g, cells) && 0 < j < |cells|
    ensures IsPath(g, cells[j..])
    ensures var last := DirOf(cells[j - 1], cells[j]);
            CostFrom(g, cells, dir) > CostFrom(g, cells[j..], last) + Turn(dir, last)
    decreases j
  {
    MoveCosts(g, cells[0], dir, cells[1]);
    if j > 1 {
      DropPrefix(g, cells[1..], DirOf(cells[0], cells[1]), j - 1);
      assert cells[1..][j - 1..] == cells[j..];
    }
  }

  lemma SkipLoop(g: Grid, cells: seq<Cell>, dir: nat, j: nat)
    requires ValidGrid(g) && IsPath(g, cells) && 0 < j < |cells| && cells[0] == cells[j]
    ensures Connects(g, cells[j..], cells[0], cells[|cells| - 1])
    ensures IsPath(g, cells[j..]) && CostFrom(g, cells[j..], dir) < CostFrom(g, cells, dir)
  {
    DropPrefix(g, cells, dir, j);
    TurnOnce(g, cells[j..], dir, DirOf(cells[j - 1], cells[j]));
  }

  lemma OneMoveMore(g: Grid, cells: seq<Cell>, cut: seq<Cell>, dir: nat)
    requires IsPath(g, cells) && |cells| > 1 && IsPath(g, cut) && Connects(g, cut, cells[1], cells[|cells| - 1])
    requires IsPath(g, cells[1..])
    requires CostFrom(g, cut, DirOf(cells[0], cells[1])) < CostFrom(g, cells[1..], DirOf(cells[0], cells[1]))
    ensures Connects(g, [cells[0]] + cut, cells[0], cells[|cells| - 1])
    ensures IsPath(g, [cells[0]] + cut) && CostFrom(g, [cells[0]] + cut, dir) < CostFrom(g, cells, dir)
  {
    assert ([cells[0]] + cut)[1..] == cut;
  }

  /** Without the loop the path joins the same ends for less. */
  lemma {:induction false} CutLoop(g: Grid, cells: seq<Cell>, dir: nat, i: nat, j: nat)
    requires ValidGrid(g) && IsPath(g, cells) && i < j < |cells| && cells[i] == cells[j]
    ensures var cut := cells[..i] + cells[j..];
            && Connects(g, cut, cells[0], cells[|cells| - 1])
            && IsPath(g, cut) && CostFrom(g, cut, dir) < CostFrom(g, cells, dir)
    decreases i
  {
    hide CostFrom, IsPath, Connects;
    var cut := cells[..i] + cells[j..];
    if i == 0 {
      SkipLoop(g, cells, dir, j);
      assert cut == cells[j..];
    } else {
      var rest := cells[1..];
      TailIsPath(g, cells);
      CutLoop(g, rest, DirOf(cells[0], cells[1]), i - 1, j - 1);
      assert cut == [cells[0]] + (rest[..i - 1] + rest[j - 1..]);
      OneMoveMore(g, cells, rest[..i - 1] + rest[j - 1..], dir);
    }
  }

  lemma TailIsPath(g: Grid, cells: seq<Cell>)
    requires IsPath(g, cells) && |cells| > 1
    ensures IsPath(g, cells[1..])
  {
  }

  ghost predicate NoRepeats<T>(s: seq<T>) { forall i, j :: 0 <= i < j < |s| ==> s[i] != s[j] }

  lemma CheapestGoesNowhereTwice(g: Grid, cells: seq<Cell>, a: Cell, b: Cell)
    requires ValidGrid(g) && Connects(g, cells, a, b)
    requires forall other :: Connects(g, other, a, b) ==> CostFrom(g, cells, 0) <= CostFrom(g, other, 0)
    ensures NoRepeats(cells) && NoRepeats(Points(g, cells))
  {
    forall i, j | 0 <= i < j < |cells| ensures cells[i] != cells[j] {
      if cells[i] == cells[j] { CutLoop(g, cells, 0, i, j); }
    }
    forall i, j | 0 <= i < j < |cells| ensures Points(g, cells)[i] != Points(g, cells)[j] {
      assert Points(g, cells)[i] == At(g, cells[i]) && Points(g, cells)[j] == At(g, cells[j]);
      DifferentCells(g, cells[i], cells[j]);
    }
  }

  lemma DifferentCells(g: Grid, a: Cell, b: Cell)
    requires ValidGrid(g) && Inside(g, a) && Inside(g, b) && a != b
    ensures At(g, a) != At(g, b)
  {
    if a.i < b.i { assert g.xs[a.i] < g.xs[b.i]; }
    if b.i < a.i { assert g.xs[b.i] < g.xs[a.i]; }
    if a.j < b.j { assert g.ys[a.j] < g.ys[b.j]; }
    if b.j < a.j { assert g.ys[b.j] < g.ys[a.j]; }
  }

  // ---- Straight runs ----

  /** No vertex lies on a straight run. */
  ghost predicate Straightened(route: seq<Point>) {
    forall k :: 0 <= k < |route| - 2 ==> !Collinear(route[k], route[k + 1], route[k + 2])
  }

  /** Moving the end of a run on leaves it the end of a run, unless it comes back to where the run began. */
  lemma MergeStraightens(route: seq<Point>, p: Point)
    requires |route| >= 2 && Straightened(route) && Collinear(route[|route| - 2], route[|route| - 1], p)
    requires p != route[|route| - 2]
    ensures Straightened(route[..|route| - 1] + [p])
  {
    var n, next := |route|, route[..|route| - 1] + [p];
    forall k | 0 <= k < |next| - 2 ensures !Collinear(next[k], next[k + 1], next[k + 2]) {
      assert !Collinear(route[k], route[k + 1], route[k + 2]);
    }
  }

  lemma PushStraightens(route: seq<Point>, p: Point)
    requires Straightened(route) && (|route| >= 2 ==> !Collinear(route[|route| - 2], route[|route| - 1], p))
    ensures Straightened(route + [p])
  {
  }
}
