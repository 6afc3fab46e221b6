/** The maze router: A* over the grid, reconstruction of the cheapest path and merging of collinear vertices. */
module MazeRouter {
  import opened Wrappers
  import opened MazeGrid
  import opened MazeHeap
  import opened MazeSearch
  import opened MazeLoops
  import opened MazeHanan

  /** The four moves out of a cell, in the order the router tries them. */
  function Neighbours(c: Cell): seq<State> {
    [State(Cell(c.i + 1, c.j), 1), State(Cell(c.i - 1, c.j), 1),
     State(Cell(c.i, c.j + 1), 2), State(Cell(c.i, c.j - 1), 2)]
  }

  predicate CanMove(g: Grid, c: Cell, t: State)
    requires Inside(g, c)
  {
    Inside(g, t.c) && Clear(At(g, c), At(g, t.c), g.obstacles)
  }

  lemma EdgesAreMoves(g: Grid, s: State, t: State)
    requires ValidGrid(g) && ValidState(g, s)
    ensures Edge(g, s, t) <==> t in Neighbours(s.c) && CanMove(g, s.c, t)
  {
    var n := Neighbours(s.c);
    assert t in n <==> t == n[0] || t == n[1] || t == n[2] || t == n[3];
  }

  function AllStates(g: Grid): set<State> {
    set i, j, dir | 0 <= i < |g.xs| && 0 <= j < |g.ys| && 0 <= dir < 3 :: State(Cell(i, j), dir)
  }

  /** The router's variables agree with the front the search is reasoned about with. */
  ghost predicate Holds(f: Front, gScore: map<State, real>, cameFrom: map<State, State>, open: Heap)
    reads open
  {
    f.gScore == gScore && f.cameFrom == cameFrom && f.queue == multiset(open.items) && HeapOrdered(open.items)
  }

  ghost predicate OnlyAt(t: State, score: map<State, real>, score': map<State, real>) {
    forall u :: u in score ==> u in score' && (u != t ==> score'[u] == score[u])
  }

  /** The invariants of the search, each as a single fact for the loops to carry. */
  ghost predicate SteadyNow(g: Grid, f: Front, start: State, goal: Cell) {
    var kept := Steady(g, f, start, goal);
    kept
  }

  ghost predicate ExpandingNow(g: Grid, f: Front, start: State, goal: Cell, cur: State) {
    var kept := Expanding(g, f, start, goal, cur);
    kept
  }

  predicate Better(g: Grid, score: map<State, real>, cur: State, t: State)
    requires ValidState(g, cur) && cur in score && ValidGrid(g)
  {
    CanMove(g, cur.c, t) && t.dir < 3 && (t in score ==> score[cur] + EdgeCost(g, cur, t) < score[t])
  }

  lemma BetterIsValid(g: Grid, score: map<State, real>, cur: State, t: State)
    requires ValidState(g, cur) && cur in score && ValidGrid(g) && Better(g, score, cur, t)
    ensures ValidState(g, t)
  {
  }

  lemma RelaxImproves(g: Grid, f: Front, start: State, goal: Cell, cur: State, t: State, x: real, item: Item, f': Front)
    requires ExpandingNow(g, f, start, goal, cur) && ValidGrid(g) && cur in f.gScore && ValidState(g, cur)
    requires t in Neighbours(cur.c) && Better(g, f.gScore, cur, t)
    requires x == f.gScore[cur] + EdgeCost(g, cur, t) && item == Item(t, x + Heuristic(g, t))
    requires f' == Front(f.gScore[t := x], f.cameFrom[t := cur], f.closed, f.queue + multiset{item})
    ensures ExpandingNow(g, f', start, goal, cur)
    ensures Known(g, f'.gScore) && cur in f'.gScore && (Edge(g, cur, t) ==> RelaxedAlong(g, f'.gScore, cur, t))
  {
    EdgesAreMoves(g, cur, t);
    Improve(g, f, start, goal, cur, t, x, item, f');
  }

  lemma RelaxKeeps(g: Grid, f: Front, start: State, goal: Cell, cur: State, t: State)
    requires ExpandingNow(g, f, start, goal, cur) && ValidGrid(g) && cur in f.gScore && ValidState(g, cur)
    requires t in Neighbours(cur.c) && !Better(g, f.gScore, cur, t)
    ensures Known(g, f.gScore)
    ensures Edge(g, cur, t) ==> RelaxedAlong(g, f.gScore, cur, t)
  {
    EdgesAreMoves(g, cur, t);
  }

  lemma ExpandingFacts(g: Grid, f: Front, start: State, goal: Cell, cur: State)
    requires ExpandingNow(g, f, start, goal, cur)
    ensures ValidGrid(g) && cur in f.gScore && ValidState(g, cur)
  {
  }

  /** One turn of the inner loop: records the move from `cur` to `t` when it is legal and better. */
  method Relax(g: Grid, open: Heap, gScore: map<State, real>, cameFrom: map<State, State>, cur: State, t: State,
               ghost start: State, ghost goal: Cell, ghost f: Front)
    returns (gScore': map<State, real>, cameFrom': map<State, State>, ghost f': Front)
    requires Holds(f, gScore, cameFrom, open) && ExpandingNow(g, f, start, goal, cur) && t in Neighbours(cur.c)
    modifies open
    ensures Holds(f', gScore', cameFrom', open) && ExpandingNow(g, f', start, goal, cur) && f'.closed == f.closed
    ensures Edge(g, cur, t) ==> RelaxedAlong(g, f'.gScore, cur, t)
    ensures OnlyAt(t, gScore, gScore')
  {
    hide ExpandingNow, RelaxedAlong, Edge, Heuristic, EdgeCost, Better, ValidGrid, ValidState, HeapOrdered;
    ExpandingFacts(g, f, start, goal, cur);
    if Better(g, gScore, cur, t) {
      BetterIsValid(g, gScore, cur, t);
      var tentative := gScore[cur] + EdgeCost(g, cur, t);
      var item := Item(t, tentative + Heuristic(g, t));
      gScore', cameFrom' := gScore[t := tentative], cameFrom[t := cur];
      open.Push(item);
      f' := Front(gScore', cameFrom', f.closed, f.queue + multiset{item});
      RelaxImproves(g, f, start, goal, cur, t, tentative, item, f');
    } else {
      gScore', cameFrom', f' := gScore, cameFrom, f;
      RelaxKeeps(g, f, start, goal, cur, t);
    }
  }

  lemma RelaxedAlongStays(g: Grid, score: map<State, real>, score': map<State, real>, cur: State, u: State, t: State)
    requires ValidGrid(g) && Known(g, score) && Known(g, score') && cur in score && Edge(g, cur, u)
    requires RelaxedAlong(g, score, cur, u) && OnlyAt(t, score, score') && u != t && cur != t
    ensures RelaxedAlong(g, score', cur, u)
  {
  }

  ghost predicate RelaxedUpTo(g: Grid, score: map<State, real>, cur: State, k: nat)
    requires ValidGrid(g) && Known(g, score) && cur in score
  {
    forall m :: 0 <= m < k && m < 4 && Edge(g, cur, Neighbours(cur.c)[m]) ==>
      RelaxedAlong(g, score, cur, Neighbours(cur.c)[m])
  }

  lemma OneMoreRelaxed(g: Grid, score: map<State, real>, score': map<State, real>, cur: State, k: nat)
    requires ValidGrid(g) && Known(g, score) && Known(g, score') && cur in score && cur in score' && k < 4
    requires RelaxedUpTo(g, score, cur, k) && OnlyAt(Neighbours(cur.c)[k], score, score')
    requires Edge(g, cur, Neighbours(cur.c)[k]) ==> RelaxedAlong(g, score', cur, Neighbours(cur.c)[k])
    ensures RelaxedUpTo(g, score', cur, k + 1)
  {
    var steps := Neighbours(cur.c);
    forall m | 0 <= m < k && Edge(g, cur, steps[m]) ensures RelaxedAlong(g, score', cur, steps[m]) {
      RelaxedAlongStays(g, score, score', cur, steps[m], steps[k]);
    }
  }

  lemma AllRelaxed(g: Grid, f: Front, start: State, goal: Cell, cur: State)
    requires ExpandingNow(g, f, start, goal, cur) && RelaxedUpTo(g, f.gScore, cur, 4)
    ensures SteadyNow(g, f, start, goal)
  {
    forall t | Edge(g, cur, t) ensures RelaxedAlong(g, f.gScore, cur, t) { EdgesAreMoves(g, cur, t); }
    assert Relaxed(g, f.gScore, cur);
  }

  /** Tries the four moves out of `cur`. */
  method Expand(g: Grid, open: Heap, gScore: map<State, real>, cameFrom: map<State, State>, cur: State,
                ghost start: State, ghost goal: Cell, ghost f: Front)
    returns (gScore': map<State, real>, cameFrom': map<State, State>, ghost f': Front)
    requires Holds(f, gScore, cameFrom, open) && ExpandingNow(g, f, start, goal, cur)
    modifies open
    ensures Holds(f', gScore', cameFrom', open) && SteadyNow(g, f', start, goal) && f'.closed == f.closed
  {
    gScore', cameFrom', f' := gScore, cameFrom, f;
    var steps := Neighbours(cur.c);
    for k := 0 to 4
      invariant Holds(f', gScore', cameFrom', open) && ExpandingNow(g, f', start, goal, cur) && f'.closed == f.closed
      invariant RelaxedUpTo(g, f'.gScore, cur, k)
    {
      ghost var before := f'.gScore;
      gScore', cameFrom', f' := Relax(g, open, gScore', cameFrom', cur, steps[k], start, goal, f');
      OneMoreRelaxed(g, before, f'.gScore, cur, k);
    }
    AllRelaxed(g, f', start, goal, cur);
  }

  lemma NothingQueuedNothingOpen(g: Grid, f: Front, start: State, goal: Cell)
    requires SteadyNow(g, f, start, goal) && f.queue == multiset{}
    ensures f.closed == f.gScore.Keys
  {
    forall s | s in f.gScore ensures s in f.closed {
      assert f.queue[Item(s, Estimate(g, f.gScore, s))] == 0;
    }
  }

  lemma PoppedGoalIsBest(g: Grid, f: Front, start: State, goal: Cell, top: Item)
    requires SteadyNow(g, f, start, goal) && Least(f, top) && top.state.c == goal
    requires Inside(g, goal) && At(g, goal) == g.goal
    ensures top.state in f.gScore && Exhausted(g, f, f.gScore[top.state])
  {
    forall s | s in f.gScore && s !in f.closed ensures Estimate(g, f.gScore, s) >= f.gScore[top.state] {
      assert f.queue[Item(s, Estimate(g, f.gScore, s))] == 1;
      assert Item(s, Estimate(g, f.gScore, s)) in f.queue;
    }
  }

  lemma VisitFacts(g: Grid, f: Front, start: State, goal: Cell, top: Item)
    requires SteadyNow(g, f, start, goal) && top in f.queue
    ensures ValidGrid(g) && top.state in f.gScore && ValidState(g, top.state) && f.closed <= AllStates(g)
    ensures top.state in AllStates(g)
  {
  }

  /** A popped item that is not at the goal: skipped when stale, expanded otherwise. `f` is the front before the pop. */
  method Visit(g: Grid, open: Heap, gScore: map<State, real>, cameFrom: map<State, State>, top: Item,
               ghost start: State, ghost goal: Cell, ghost f: Front)
    returns (gScore': map<State, real>, cameFrom': map<State, State>, ghost f': Front)
    requires SteadyNow(g, f, start, goal) && Least(f, top) && top.state.c != goal
    requires Holds(f.(queue := f.queue - multiset{top}), gScore, cameFrom, open)
    modifies open
    ensures Holds(f', gScore', cameFrom', open) && SteadyNow(g, f', start, goal)
    ensures (f'.closed == f.closed && open.items == old(open.items)) ||
            (f'.closed == f.closed + {top.state} && top.state in AllStates(g) - f.closed)
  {
    var cur := top.state;
    VisitFacts(g, f, start, goal, top);
    if top.f - Heuristic(g, cur) > gScore[cur] {
      DropStale(g, f, start, goal, top);
      gScore', cameFrom', f' := gScore, cameFrom, f.(queue := f.queue - multiset{top});
    } else {
      Close(g, f, start, goal, top);
      f' := f.(queue := f.queue - multiset{top}, closed := f.closed + {cur});
      gScore', cameFrom', f' := Expand(g, open, gScore, cameFrom, cur, start, goal, f');
    }
  }

  /** Takes the least item off the open heap. */
  method PopLeast(open: Heap, ghost f: Front, ghost gScore: map<State, real>, ghost cameFrom: map<State, State>)
    returns (top: Option<Item>)
    requires Holds(f, gScore, cameFrom, open)
    modifies open
    ensures top.None? ==> f.queue == multiset{}
    ensures top.Some? ==> Least(f, top.value) && |open.items| < old(|open.items|)
    ensures top.Some? ==> Holds(f.(queue := f.queue - multiset{top.value}), gScore, cameFrom, open)
  {
    top := open.Pop();
    if top.Some? { assert |f.queue| == |open.items| + 1; }
  }

  /** Runs A* until the goal is popped or the queue is empty. */
  method Run(g: Grid, from: Cell, goal: Cell)
    returns (found: bool, gScore: map<State, real>, cameFrom: map<State, State>, ghost f: Front, ghost bound: real)
    requires ValidGrid(g) && Inside(g, from) && Inside(g, goal) && At(g, goal) == g.goal
    ensures SteadyNow(g, f, State(from, 0), goal) && f.gScore == gScore && f.cameFrom == cameFrom
    ensures found ==> exists s :: s in gScore && s.c == goal && gScore[s] == bound
    ensures found ==> Known(g, gScore) && Exhausted(g, f, bound)
    ensures !found ==> f.closed == gScore.Keys
  {
    var start := State(from, 0);
    var open := new Heap();
    open.Push(Item(start, Heuristic(g, start)));
    gScore, cameFrom, f, bound := map[start := 0.0], map[], StartFront(g, start), 0.0;
    StartSteady(g, start, goal);
    hide SteadyNow, Least, Known, Exhausted, HeapOrdered, Heuristic, StartFront;
    while true
      invariant Holds(f, gScore, cameFrom, open) && SteadyNow(g, f, start, goal)
      decreases AllStates(g) - f.closed, |open.items|
    {
      var top := PopLeast(open, f, gScore, cameFrom);
      if top.None? {
        NothingQueuedNothingOpen(g, f, start, goal);
        return false, gScore, cameFrom, f, bound;
      }
      if top.value.state.c == goal {
        PoppedGoalIsBest(g, f, start, goal, top.value);
        return true, gScore, cameFrom, f, gScore[top.value.state];
      }
      gScore, cameFrom, f := Visit(g, open, gScore, cameFrom, top.value, start, goal, f);
    }
  }

  // ---- Reconstruction ----

  /** The cheapest known state at the goal, whatever direction it was entered from. */
  method CheapestAt(gScore: map<State, real>, goal: Cell) returns (best: Option<State>)
    ensures best.Some? ==> best.value in gScore && best.value.c == goal
    ensures forall dir :: 0 <= dir < 3 && State(goal, dir) in gScore ==>
              best.Some? && gScore[best.value] <= gScore[State(goal, dir)]
  {
    best := None;
    for dir := 0 to 3
      invariant best.Some? ==> best.value in gScore && best.value.c == goal
      invariant forall d :: 0 <= d < dir && State(goal, d) in gScore ==>
                  best.Some? && gScore[best.value] <= gScore[State(goal, d)]
    {
      var s := State(goal, dir);
      if s in gScore && (best.None? || gScore[s] < gScore[best.value]) { best := Some(s); }
    }
  }

  function Reversed<T>(v: seq<T>): (r: seq<T>)
    ensures |r| == |v|
  {
    if v == [] then [] else [v[|v| - 1]] + Reversed(v[..|v| - 1])
  }

  lemma ReversedAppend<T>(v: seq<T>, x: T)
    ensures Reversed(v + [x]) == [x] + Reversed(v)
  {
    assert (v + [x])[..|v|] == v;
  }

  /** `cells` leads from the cell of `head` to the goal and completes the cost of `best`. */
  ghost predicate Tail(g: Grid, gScore: map<State, real>, cells: seq<Cell>, head: State, best: State) {
    && IsPath(g, cells) && cells[0] == head.c && cells[|cells| - 1] == best.c
    && head in gScore && best in gScore && gScore[head] + CostFrom(g, cells, head.dir) == gScore[best]
  }

  lemma TailGrows(g: Grid, f: Front, start: State, goal: Cell, cells: seq<Cell>, head: State, best: State)
    requires Steady(g, f, start, goal) && Tail(g, f.gScore, cells, head, best) && head in f.cameFrom
    ensures var p := f.cameFrom[head];
            Tail(g, f.gScore, [p.c] + cells, p, best) && f.gScore[p] < f.gScore[head] &&
            Points(g, [p.c] + cells) == [At(g, p.c)] + Points(g, cells)
  {
    assert TracedAt(g, f.gScore, f.cameFrom, f.closed, head);
    var p := f.cameFrom[head];
    assert ([p.c] + cells)[1..] == cells;
    EdgesCost(g, p, head);
  }

  lemma TailEnds(g: Grid, f: Front, start: State, goal: Cell, head: State)
    requires Steady(g, f, start, goal) && head in f.gScore && head !in f.cameFrom
    ensures head == start && f.gScore[head] == 0.0 && head.dir == 0
  {
    assert head != start ==> TracedAt(g, f.gScore, f.cameFrom, f.closed, head);
  }

  lemma KnownInside(g: Grid, f: Front, start: State, goal: Cell, s: State)
    requires SteadyNow(g, f, start, goal) && s in f.gScore
    ensures Inside(g, s.c)
  {
  }

  function AtMost(gScore: map<State, real>, cur: Option<State>): set<State>
    requires cur.Some? ==> cur.value in gScore
  {
    if cur.None? then {} else set s | s in gScore && gScore[s] <= gScore[cur.value]
  }

  /** Walks the predecessors back from `best` and reverses what it saw. */
  method WalkBack(g: Grid, gScore: map<State, real>, cameFrom: map<State, State>, best: State,
                  ghost start: State, ghost goal: Cell, ghost f: Front)
    returns (path: seq<Point>, ghost cells: seq<Cell>)
    requires SteadyNow(g, f, start, goal) && f.gScore == gScore && f.cameFrom == cameFrom && best in gScore
    ensures Connects(g, cells, start.c, best.c) && path == Points(g, cells)
    ensures CostFrom(g, cells, 0) == gScore[best]
  {
    KnownInside(g, f, start, goal, best);
    path, cells := [At(g, best.c)], [best.c];
    ghost var head := best;
    var cur := if best in cameFrom then Some(cameFrom[best]) else None;
    assert Reversed(path) == path;
    if cur.Some? { TailGrows(g, f, start, goal, cells, head, best); }
    while cur.Some?
      invariant Tail(g, gScore, cells, head, best) && Reversed(path) == Points(g, cells)
      invariant cur == if head in cameFrom then Some(cameFrom[head]) else None
      invariant cur.Some? ==> cur.value in gScore
      decreases AtMost(gScore, cur)
    {
      TailGrows(g, f, start, goal, cells, head, best);
      ghost var was := cur;
      KnownInside(g, f, start, goal, cur.value);
      ReversedAppend(path, At(g, cur.value.c));
      path := path + [At(g, cur.value.c)];
      cells := [cur.value.c] + cells;
      head := cur.value;
      cur := if cur.value in cameFrom then Some(cameFrom[cur.value]) else None;
      if cur.Some? { TailGrows(g, f, start, goal, cells, head, best); }
      assert was.value in AtMost(gScore, was) && was.value !in AtMost(gScore, cur);
    }
    TailEnds(g, f, start, goal, head);
    path := Reversed(path);
  }

  // ---- Merging collinear vertices ----

  ghost predicate Routed(route: seq<Point>, obstacles: seq<Box>) {
    && (forall k :: 0 <= k < |route| - 1 ==> AxisAligned(route[k], route[k + 1]))
    && (Positive(obstacles) ==> forall k :: 0 <= k < |route| - 1 ==> Clear(route[k], route[k + 1], obstacles))
  }

  /** The last segment of the route runs in the direction of the last move. */
  predicate Follows(a: Point, b: Point, dir: nat) { if dir == 1 then a.y == b.y else a.x == b.x }

  /** The route drawn so far stands for the first `k` points of the path and costs no more. */
  ghost predicate Drawn(g: Grid, cells: seq<Cell>, k: nat, route: seq<Point>)
    requires IsPath(g, cells) && 0 < k <= |cells|
  {
    && route != [] && route[0] == At(g, cells[0]) && Inside(g, cells[k - 1]) &&
        route[|route| - 1] == At(g, cells[k - 1])
    && Routed(route, g.obstacles)
    && Length(route) <= Length(Points(g, cells)[..k])
    && (k == 1 ==> |route| == 1)
    && (k >= 2 ==> |route| >= 2 && |route| - 2 <= Bends(cells[..k]) &&
                   Follows(route[|route| - 2], route[|route| - 1], DirOf(cells[k - 2], cells[k - 1])))
  }

  lemma {:induction false} PathMoves(g: Grid, cells: seq<Cell>, k: nat)
    requires IsPath(g, cells) && k + 1 < |cells|
    ensures Legal(g, cells[k], cells[k + 1])
  {
    if k > 0 { PathMoves(g, cells[1..], k - 1); }
  }

  /** A legal move really moves, along one axis. */
  lemma MoveFollows(g: Grid, a: Cell, b: Cell)
    requires ValidGrid(g) && Legal(g, a, b)
    ensures Follows(At(g, a), At(g, b), DirOf(a, b)) && At(g, a) != At(g, b) && AxisAligned(At(g, a), At(g, b))
  {
  }

  lemma PrefixLengths(g: Grid, cells: seq<Cell>, k: nat)
    requires IsPath(g, cells) && 0 < k < |cells|
    ensures var pts := Points(g, cells);
            Length(pts[..k + 1]) == Length(pts[..k]) + Manhattan(pts[k - 1], pts[k])
    ensures k >= 2 ==>
              Bends(cells[..k + 1]) == Bends(cells[..k]) +
                if DirOf(cells[k - 2], cells[k - 1]) != DirOf(cells[k - 1], cells[k]) then 1 else 0
  {
    assert Points(g, cells)[..k + 1][..k] == Points(g, cells)[..k];
    assert cells[..k + 1][..k] == cells[..k];
  }

  lemma LengthAppend(route: seq<Point>, p: Point)
    requires route != []
    ensures Length(route + [p]) == Length(route) + Manhattan(route[|route| - 1], p)
  {
    assert (route + [p])[..|route|] == route;
  }

  lemma Triangle(a: Point, b: Point, p: Point)
    ensures Manhattan(a, p) <= Manhattan(a, b) + Manhattan(b, p)
  {
  }

  lemma RoutedPrefix(route: seq<Point>, n: nat, obstacles: seq<Box>)
    requires Routed(route, obstacles) && n <= |route|
    ensures Routed(route[..n], obstacles)
  {
  }

  lemma RoutedAppend(route: seq<Point>, p: Point, obstacles: seq<Box>)
    requires Routed(route, obstacles) && route != [] && AxisAligned(route[|route| - 1], p)
    requires Positive(obstacles) ==> Clear(route[|route| - 1], p, obstacles)
    ensures Routed(route + [p], obstacles)
  {
    var r := route + [p];
    assert forall k :: 0 <= k < |route| ==> r[k] == route[k];
    forall k | 0 <= k < |r| - 1
      ensures AxisAligned(r[k], r[k + 1]) && (Positive(obstacles) ==> Clear(r[k], r[k + 1], obstacles))
    {
      if k + 1 < |route| { assert AxisAligned(route[k], route[k + 1]); }
    }
  }

  /** Merging happens along the direction of the new move, and a vertex is pushed only at a bend. */
  lemma CollinearOrBend(a: Point, b: Point, p: Point, dir: nat, next: nat)
    requires Follows(a, b, dir) && Follows(b, p, next) && b != p && (dir == 1 || dir == 2) && (next == 1 || next == 2)
    ensures Collinear(a, b, p) ==> Follows(a, p, next)
    ensures !Collinear(a, b, p) ==> dir != next
  {
  }

  lemma MergedLength(route: seq<Point>, p: Point)
    requires |route| >= 2
    ensures Length(route[..|route| - 1] + [p]) <= Length(route) + Manhattan(route[|route| - 1], p)
  {
    var n := |route|;
    LengthAppend(route[..n - 1], p);
    Triangle(route[n - 2], route[n - 1], p);
  }

  lemma MergedRouted(route: seq<Point>, p: Point, obstacles: seq<Box>)
    requires |route| >= 2 && Routed(route, obstacles) && Collinear(route[|route| - 2], route[|route| - 1], p)
    requires Clear(route[|route| - 1], p, obstacles)
    ensures Routed(route[..|route| - 1] + [p], obstacles)
  {
    var n := |route|;
    if Positive(obstacles) {
      assert Clear(route[n - 2], route[n - 2 + 1], obstacles);
      MergedSegmentClear(route[n - 2], route[n - 1], p, obstacles);
    }
    RoutedPrefix(route, n - 1, obstacles);
    RoutedAppend(route[..n - 1], p, obstacles);
  }

  lemma DrawMerged(g: Grid, cells: seq<Cell>, k: nat, route: seq<Point>, p: Point, merged: seq<Point>)
    requires ValidGrid(g) && IsPath(g, cells) && 2 <= k < |cells| && Drawn(g, cells, k, route)
    requires p == Points(g, cells)[k] && Collinear(route[|route| - 2], route[|route| - 1], p)
    requires merged == route[..|route| - 1] + [p]
    ensures Drawn(g, cells, k + 1, merged)
  {
    hide Length, Bends, Points, Legal, Clear, ValidGrid, IsPath, DirOf, Collinear, Routed, Follows;
    var n := |route|;
    PathMoves(g, cells, k - 1);
    MoveFollows(g, cells[k - 1], cells[k]);
    PrefixLengths(g, cells, k);
    MergedLength(route, p);
    MergedRouted(route, p, g.obstacles);
    CollinearOrBend(route[n - 2], route[n - 1], p, DirOf(cells[k - 2], cells[k - 1]), DirOf(cells[k - 1], cells[k]));
  }

  lemma DrawPushed(g: Grid, cells: seq<Cell>, k: nat, route: seq<Point>, p: Point, pushed: seq<Point>)
    requires ValidGrid(g) && IsPath(g, cells) && 0 < k < |cells| && Drawn(g, cells, k, route)
    requires p == Points(g, cells)[k] && (k >= 2 ==> !Collinear(route[|route| - 2], route[|route| - 1], p))
    requires pushed == route + [p]
    ensures Drawn(g, cells, k + 1, pushed)
  {
    hide Length, Bends, Points, Legal, Clear, ValidGrid, IsPath, DirOf, Collinear, Routed, Follows;
    var n := |route|;
    PathMoves(g, cells, k - 1);
    MoveFollows(g, cells[k - 1], cells[k]);
    PrefixLengths(g, cells, k);
    LengthAppend(route, p);
    if k >= 2 {
      CollinearOrBend(route[n - 2], route[n - 1], p, DirOf(cells[k - 2], cells[k - 1]), DirOf(cells[k - 1], cells[k]));
    }
    RoutedAppend(route, p, g.obstacles);
  }

  /** What is drawn so far are points of the path, and no vertex lies on a straight run unless the path repeats
  itself. */
  ghost predicate StraightSoFar(path: seq<Point>, k: nat, route: seq<Point>)
    requires k <= |path|
  {
    (forall x :: x in route ==> x in path[..k]) && (NoRepeats(path) ==> Straightened(route))
  }

  lemma MergedStraight(path: seq<Point>, k: nat, route: seq<Point>)
    requires k < |path| && StraightSoFar(path, k, route)
    requires |route| >= 2 && Collinear(route[|route| - 2], route[|route| - 1], path[k])
    ensures StraightSoFar(path, k + 1, route[..|route| - 1] + [path[k]])
  {
    var corner := route[|route| - 2];
    assert corner in route;
    var m :| 0 <= m < k && path[..k][m] == corner;
    if NoRepeats(path) { MergeStraightens(route, path[k]); }
    SeenMore(path, k, route[..|route| - 1]);
  }

  lemma PushedStraight(path: seq<Point>, k: nat, route: seq<Point>)
    requires k < |path| && StraightSoFar(path, k, route)
    requires |route| >= 2 ==> !Collinear(route[|route| - 2], route[|route| - 1], path[k])
    ensures StraightSoFar(path, k + 1, route + [path[k]])
  {
    if NoRepeats(path) { PushStraightens(route, path[k]); }
    SeenMore(path, k, route);
  }

  lemma SeenMore(path: seq<Point>, k: nat, route: seq<Point>)
    requires k < |path| && forall x :: x in route ==> x in path[..k]
    ensures forall x :: x in route + [path[k]] ==> x in path[..k + 1]
  {
    assert path[..k + 1] == path[..k] + [path[k]];
  }

  /** Drops every vertex that lies on a straight run. */
  method Simplify(g: Grid, path: seq<Point>, ghost cells: seq<Cell>) returns (route: seq<Point>)
    requires ValidGrid(g) && IsPath(g, cells) && path == Points(g, cells)
    ensures Drawn(g, cells, |cells|, route)
    ensures NoRepeats(path) ==> Straightened(route)
  {
    hide Straightened, NoRepeats;
    route := [path[0]];
    assert path[..1] == [path[0]];
    OnePointIsStraight(path);
    for k := 1 to |path|
      invariant Drawn(g, cells, k, route) && StraightSoFar(path, k, route)
    {
      hide StraightSoFar;
      var p, n := path[k], |route|;
      if n >= 2 && Collinear(route[n - 2], route[n - 1], p) {
        DrawMerged(g, cells, k, route, p, route[..n - 1] + [p]);
        MergedStraight(path, k, route);
        route := route[..n - 1] + [p];
      } else {
        DrawPushed(g, cells, k, route, p, route + [p]);
        PushedStraight(path, k, route);
        route := route + [p];
      }
    }
  }

  lemma OnePointIsStraight(path: seq<Point>)
    requires path != []
    ensures StraightSoFar(path, 1, [path[0]])
  {
    assert path[0] == path[..1][0];
  }

  // ---- The router ----

  lemma SearchIsOptimal(g: Grid, f: Front, from: Cell, goal: Cell, bound: real, cells: seq<Cell>)
    requires SteadyNow(g, f, State(from, 0), goal) && Exhausted(g, f, bound)
    requires Inside(g, goal) && At(g, goal) == g.goal && Connects(g, cells, from, goal)
    ensures CostFrom(g, cells, 0) >= bound
  {
    NoPathBelow(g, f, State(from, 0), goal, bound, cells, 0, 0.0);
  }

  lemma SearchIsComplete(g: Grid, f: Front, from: Cell, goal: Cell)
    requires SteadyNow(g, f, State(from, 0), goal) && f.closed == f.gScore.Keys
    requires Inside(g, goal) && At(g, goal) == g.goal
    ensures !Reachable(g, from, goal)
  {
    forall cells | Connects(g, cells, from, goal) ensures false {
      SearchIsOptimal(g, f, from, goal, CostFrom(g, cells, 0) + 1.0, cells);
    }
  }

  /** The cheapest goal state costs no more than the bound the search stopped at. */
  lemma CheapestIsBest(g: Grid, f: Front, start: State, goal: Cell, bound: real, s: State, best: Option<State>)
    requires SteadyNow(g, f, start, goal) && s in f.gScore && s.c == goal && f.gScore[s] <= bound
    requires forall dir :: 0 <= dir < 3 && State(goal, dir) in f.gScore ==>
               best.Some? && best.value in f.gScore && f.gScore[best.value] <= f.gScore[State(goal, dir)]
    ensures best.Some? && best.value in f.gScore && f.gScore[best.value] <= bound
  {
    assert s == State(goal, s.dir);
  }

  /** From a search that found the goal to the route: cheapest goal state, walk back, merge. */
  method Reconstruct(g: Grid, gScore: map<State, real>, cameFrom: map<State, State>, from: Cell, to: Cell,
                     ghost f: Front, ghost bound: real)
    returns (route: seq<Point>, ghost cells: seq<Cell>)
    requires SteadyNow(g, f, State(from, 0), to) && f.gScore == gScore && f.cameFrom == cameFrom
    requires ValidGrid(g) && Known(g, gScore) && Exhausted(g, f, bound)
    requires exists s :: s in gScore && s.c == to && gScore[s] == bound
    ensures Connects(g, cells, from, to) && CostFrom(g, cells, 0) <= bound
    ensures Drawn(g, cells, |cells|, route) && (NoRepeats(Points(g, cells)) ==> Straightened(route))
  {
    ghost var s :| s in gScore && s.c == to && gScore[s] == bound;
    var best := CheapestAt(gScore, to);
    CheapestIsBest(g, f, State(from, 0), to, bound, s, best);
    var path;
    path, cells := WalkBack(g, gScore, cameFrom, best.value, State(from, 0), to, f);
    route := Simplify(g, path, cells);
  }

  lemma DrawnCost(g: Grid, cells: seq<Cell>, route: seq<Point>)
    requires IsPath(g, cells) && Drawn(g, cells, |cells|, route) && |cells| >= 2
    ensures RouteCost(route) <= CostFrom(g, cells, 0)
  {
    hide Length, Bends, Points, Legal, IsPath, DirOf, Routed, Follows, CostFrom;
    PathCost(g, cells);
    assert cells[..|cells|] == cells && Points(g, cells)[..|cells|] == Points(g, cells);
  }

  lemma {:induction false} LongPathsCost(g: Grid, cells: seq<Cell>, dir: nat)
    requires ValidGrid(g) && IsPath(g, cells)
    ensures CostFrom(g, cells, dir) >= 0.0 && (|cells| > 1 ==> CostFrom(g, cells, dir) > 0.0)
  {
    if |cells| > 1 {
      MoveFollows(g, cells[0], cells[1]);
      LongPathsCost(g, cells[1..], DirOf(cells[0], cells[1]));
    }
  }

  /** A cheapest path stays put exactly when there is nowhere to go. */
  lemma SingleCell(g: Grid, cells: seq<Cell>, a: Cell, b: Cell)
    requires ValidGrid(g) && Connects(g, cells, a, b)
    requires forall other :: Connects(g, other, a, b) ==> CostFrom(g, cells, 0) <= CostFrom(g, other, 0)
    ensures |cells| == 1 <==> a == b
  {
    LongPathsCost(g, cells, 0);
    if a == b { assert Connects(g, [a], a, b); }
  }

  /** Search, walk back and simplify, on a given grid. */
  method RouteOnGrid(g: Grid, from: Cell, to: Cell) returns (route: Option<seq<Point>>, ghost cells: seq<Cell>)
    requires ValidGrid(g) && Inside(g, from) && Inside(g, to) && At(g, to) == g.goal
    ensures route.None? <==> from == to || !Reachable(g, from, to)
    ensures route.Some? ==>
              |route.value| >= 2 && route.value[0] == At(g, from) && route.value[|route.value| - 1] == At(g, to) &&
              Routed(route.value, g.obstacles) && Straightened(route.value)
    ensures route.Some? ==>
              && Connects(g, cells, from, to) && RouteCost(route.value) <= CostFrom(g, cells, 0)
              && forall other :: Connects(g, other, from, to) ==> CostFrom(g, cells, 0) <= CostFrom(g, other, 0)
  {
    var found, gScore, cameFrom;
    ghost var f, bound;
    found, gScore, cameFrom, f, bound := Run(g, from, to);
    if !found {
      SearchIsComplete(g, f, from, to);
      return None, [];
    }
    var simplified;
    simplified, cells := Reconstruct(g, gScore, cameFrom, from, to, f, bound);
    forall other | Connects(g, other, from, to) ensures CostFrom(g, cells, 0) <= CostFrom(g, other, 0) {
      SearchIsOptimal(g, f, from, to, bound, other);
    }
    SingleCell(g, cells, from, to);
    CheapestGoesNowhereTwice(g, cells, from, to);
    if |simplified| < 2 { return None, cells; }
    DrawnCost(g, cells, simplified);
    route := Some(simplified);
  }

  lemma NoWayBeats(g: Grid, start: Point, goal: Point, obstacles: seq<Box>, margin: real, bound: real)
    requires margin >= 0.0 && start != goal && g == GridOf(start, goal, obstacles, margin)
    requires forall other :: Connects(g, other, CellAt(g, start), CellAt(g, goal)) ==> bound <= CostFrom(g, other, 0)
    ensures forall way :: IsWay(way, start, goal, Grown(obstacles, margin)) ==> bound <= RouteCost(way)
  {
    forall way | IsWay(way, start, goal, Grown(obstacles, margin)) ensures bound <= RouteCost(way) {
      var cells := GridIsEnough(way, start, goal, obstacles, margin);
    }
  }

  lemma NoWayAtAll(g: Grid, start: Point, goal: Point, obstacles: seq<Box>, margin: real)
    requires margin >= 0.0 && start != goal && g == GridOf(start, goal, obstacles, margin)
    requires !Reachable(g, CellAt(g, start), CellAt(g, goal))
    ensures forall way :: !IsWay(way, start, goal, Grown(obstacles, margin))
  {
    forall way | IsWay(way, start, goal, Grown(obstacles, margin)) ensures false {
      WayReaches(way, start, goal, obstacles, margin);
    }
  }

  /** No axis-aligned way that clears the obstacles by the margin, through the grid or not, costs less. */
  ghost predicate BestOfAll(route: Option<seq<Point>>, start: Point, goal: Point, obstacles: seq<Box>, margin: real) {
    forall way :: IsWay(way, start, goal, Grown(obstacles, margin)) ==>
      route.Some? && RouteCost(route.value) <= RouteCost(way)
  }

  /** Routes from `start` to `goal`. It always terminates; it fails exactly when the ends coincide or no path on the
  grid clears the obstacles; and what it returns is an axis-aligned route between the ends that clears every
  obstacle with an inside, has no vertex on a straight run, and costs no more than any path on the grid, nor than any
  way through the plane that clears the obstacles by the margin. */
  method MazeRoute(start: Point, goal: Point, obstacles: seq<Box>, margin: real)
    returns (route: Option<seq<Point>>, ghost cells: seq<Cell>)
    ensures var g := GridOf(start, goal, obstacles, margin);
            route.None? <==> start == goal || !Reachable(g, CellAt(g, start), CellAt(g, goal))
    ensures route.Some? ==>
              |route.value| >= 2 && route.value[0] == start && route.value[|route.value| - 1] == goal &&
              Routed(route.value, obstacles) && Straightened(route.value)
    ensures route.Some? ==>
              var g := GridOf(start, goal, obstacles, margin);
              && Connects(g, cells, CellAt(g, start), CellAt(g, goal))
              && RouteCost(route.value) <= CostFrom(g, cells, 0)
              && forall other :: Connects(g, other, CellAt(g, start), CellAt(g, goal)) ==>
                   CostFrom(g, cells, 0) <= CostFrom(g, other, 0)
    ensures margin >= 0.0 && start != goal ==> BestOfAll(route, start, goal, obstacles, margin)
  {
    hide IsWay, Grown, Routed, Straightened, RouteCost, OnVertical, OnHorizontal;
    var g := GridOf(start, goal, obstacles, margin);
    route, cells := RouteOnGrid(g, CellAt(g, start), CellAt(g, goal));
    if margin >= 0.0 && start != goal {
      if route.None? {
        NoWayAtAll(g, start, goal, obstacles, margin);
      } else {
        NoWayBeats(g, start, goal, obstacles, margin, RouteCost(route.value));
      }
    }
  }
}
