/** What the A* search of the maze router knows while it runs, as a value, and why each step keeps it. */
module MazeSearch {
  import opened Wrappers
  import opened MazeHeap
  import opened MazeGrid

  // ---- Packed states ----
  // The router keys its maps by one number per state. The packing loses nothing, so the search below keeps the pair.

  function Pack(w: nat, s: State): nat
    requires 0 <= s.c.i < w && 0 <= s.c.j && s.dir < 3
  {
    (s.c.j * w + s.c.i) * 3 + s.dir
  }

  function Unpack(w: nat, packed: nat): State
    requires w > 0
  {
    var dir := packed % 3;
    var cell := (packed - dir) / 3;
    State(Cell(cell % w, cell / w), dir)
  }

  lemma AtLeastOneTimes(a: int, w: int)
    requires a >= 1 && w > 0
    ensures a * w >= w
  {
    assert a * w == (a - 1) * w + w;
  }

  lemma DivModUnique(q: int, w: int, r: int, k: int, m: int)
    requires w > 0 && 0 <= r < w && 0 <= m < w && q * w + r == k * w + m
    ensures k == q && m == r
  {
    assert (k - q) * w == k * w - q * w && (q - k) * w == q * w - k * w;
    if k > q { AtLeastOneTimes(k - q, w); }
    if k < q { AtLeastOneTimes(q - k, w); }
  }

  /** Unpacking inverts packing. */
  lemma PackUnpacks(w: nat, s: State)
    requires 0 <= s.c.i < w && 0 <= s.c.j && s.dir < 3
    ensures Unpack(w, Pack(w, s)) == s
  {
    var n := s.c.j * w + s.c.i;
    assert n == (n / w) * w + n % w;
    DivModUnique(s.c.j, w, s.c.i, n / w, n % w);
  }

  /** Packing inverts unpacking. */
  lemma UnpackPacks(w: nat, packed: nat)
    requires w > 0
    ensures var s := Unpack(w, packed);
            0 <= s.c.i < w && 0 <= s.c.j && s.dir < 3 && Pack(w, s) == packed
  {
    var cell := (packed - packed % 3) / 3;
    assert cell == (cell / w) * w + cell % w;
  }

  // ---- States and moves of a grid ----

  predicate ValidState(g: Grid, s: State) { Inside(g, s.c) && s.dir < 3 }

  predicate Edge(g: Grid, s: State, t: State)
    requires ValidGrid(g)
  {
    s.dir < 3 && Legal(g, s.c, t.c) && t.dir == DirOf(s.c, t.c)
  }

  function EdgeCost(g: Grid, s: State, t: State): real
    requires ValidGrid(g) && ValidState(g, s) && ValidState(g, t)
  {
    StepCost(g, s.c, s.dir, t.c)
  }

  function Heuristic(g: Grid, s: State): real
    requires ValidGrid(g) && ValidState(g, s)
  {
    Manhattan(At(g, s.c), g.goal)
  }

  lemma HeuristicConsistent(g: Grid, s: State, t: State)
    requires ValidGrid(g) && ValidState(g, s) && ValidState(g, t)
    ensures Heuristic(g, s) <= EdgeCost(g, s, t) + Heuristic(g, t)
  {
  }

  lemma EdgesCost(g: Grid, s: State, t: State)
    requires ValidGrid(g) && ValidState(g, s) && ValidState(g, t) && Edge(g, s, t)
    ensures EdgeCost(g, s, t) > 0.0
  {
  }

  // ---- The state of the search ----

  /** `closed` is the set of states expanded so far. */
  datatype Front = Front(
    gScore: map<State, real>, cameFrom: map<State, State>, closed: set<State>, queue: multiset<Item>)

  ghost predicate Known(g: Grid, score: map<State, real>)
    requires ValidGrid(g)
  {
    forall s :: s in score ==> ValidState(g, s)
  }

  function Estimate(g: Grid, score: map<State, real>, s: State): real
    requires ValidGrid(g) && ValidState(g, s) && s in score
  {
    score[s] + Heuristic(g, s)
  }

  /** No queued item is better than its state's current estimate. */
  ghost predicate NoBetter(g: Grid, score: map<State, real>, queue: multiset<Item>)
    requires ValidGrid(g) && Known(g, score)
  {
    forall e :: e in queue ==> e.state in score && Estimate(g, score, e.state) <= e.f
  }

  /** A state carries exactly one current item until it is expanded, and none afterwards. */
  ghost predicate Queued(g: Grid, score: map<State, real>, closed: set<State>, queue: multiset<Item>)
    requires ValidGrid(g) && Known(g, score)
  {
    forall s :: s in score ==> queue[Item(s, Estimate(g, score, s))] == if s in closed then 0 else 1
  }

  /** Expanded states are known, are not the goal, and estimate no more than anything still queued. */
  ghost predicate Settled(g: Grid, score: map<State, real>, closed: set<State>, queue: multiset<Item>, goal: Cell)
    requires ValidGrid(g) && Known(g, score)
  {
    && closed <= score.Keys
    && (forall c :: c in closed ==> c.c != goal)
    && (forall c, e :: c in closed && e in queue ==> Estimate(g, score, c) <= e.f)
  }

  ghost predicate TracedAt(g: Grid, score: map<State, real>, cameFrom: map<State, State>, closed: set<State>, t: State)
    requires ValidGrid(g) && Known(g, score) && closed <= score.Keys
  {
    && t in cameFrom && t in score && cameFrom[t] in closed && Edge(g, cameFrom[t], t)
    && score[t] == score[cameFrom[t]] + EdgeCost(g, cameFrom[t], t)
  }

  /** Every known state but the start was reached by a move from an expanded state, at exactly that cost. */
  ghost predicate Traced(g: Grid, score: map<State, real>, cameFrom: map<State, State>, closed: set<State>,
                         start: State)
    requires ValidGrid(g) && Known(g, score) && closed <= score.Keys
  {
    && start in score && score[start] == 0.0 && start.dir == 0
    && start !in cameFrom
    && (forall t {:trigger TracedAt(g, score, cameFrom, closed, t)} :: t in score && t != start ==>
          TracedAt(g, score, cameFrom, closed, t))
  }

  ghost predicate RelaxedAlong(g: Grid, score: map<State, real>, s: State, t: State)
    requires ValidGrid(g) && Known(g, score) && s in score && Edge(g, s, t)
  {
    t in score && score[t] <= score[s] + EdgeCost(g, s, t)
  }

  ghost predicate Relaxed(g: Grid, score: map<State, real>, s: State)
    requires ValidGrid(g) && Known(g, score) && s in score
  {
    forall t :: Edge(g, s, t) ==> RelaxedAlong(g, score, s, t)
  }

  ghost predicate Searching(g: Grid, f: Front, start: State, goal: Cell) {
    && ValidGrid(g) && Known(g, f.gScore) && NoBetter(g, f.gScore, f.queue)
    && Queued(g, f.gScore, f.closed, f.queue)
    && Settled(g, f.gScore, f.closed, f.queue, goal)
    && Traced(g, f.gScore, f.cameFrom, f.closed, start)
  }

  lemma SearchingFrom(g: Grid, f: Front, start: State, goal: Cell)
    requires ValidGrid(g) && Known(g, f.gScore) && NoBetter(g, f.gScore, f.queue)
    requires Queued(g, f.gScore, f.closed, f.queue) && Settled(g, f.gScore, f.closed, f.queue, goal)
    requires Traced(g, f.gScore, f.cameFrom, f.closed, start)
    ensures Searching(g, f, start, goal)
  {
  }

  /** Between two expansions. */
  ghost predicate Steady(g: Grid, f: Front, start: State, goal: Cell) {
    Searching(g, f, start, goal) && forall s :: s in f.closed ==> Relaxed(g, f.gScore, s)
  }

  /** While `cur` is being expanded. */
  ghost predicate Expanding(g: Grid, f: Front, start: State, goal: Cell, cur: State) {
    && Searching(g, f, start, goal) && cur in f.closed
    && (forall s :: s in f.closed && s != cur ==> Relaxed(g, f.gScore, s))
    && (forall c :: c in f.closed ==> Estimate(g, f.gScore, c) <= Estimate(g, f.gScore, cur))
    && (forall e :: e in f.queue ==> Estimate(g, f.gScore, cur) <= e.f)
  }

  // ---- Steps ----

  function StartFront(g: Grid, start: State): Front
    requires ValidGrid(g) && ValidState(g, start)
  {
    Front(map[start := 0.0], map[], {}, multiset{Item(start, Heuristic(g, start))})
  }

  lemma StartSteady(g: Grid, start: State, goal: Cell)
    requires ValidGrid(g) && ValidState(g, start) && start.dir == 0
    ensures Steady(g, StartFront(g, start), start, goal)
  {
  }

  ghost predicate Least(f: Front, top: Item) {
    top in f.queue && forall e :: e in f.queue ==> top.f <= e.f
  }

  /** Dropping a superseded item changes nothing. */
  lemma DropStale(g: Grid, f: Front, start: State, goal: Cell, top: Item)
    requires Steady(g, f, start, goal) && top in f.queue && top.f > Estimate(g, f.gScore, top.state)
    ensures Steady(g, f.(queue := f.queue - multiset{top}), start, goal)
  {
  }

  lemma CloseQueued(g: Grid, score: map<State, real>, closed: set<State>, queue: multiset<Item>, top: Item)
    requires ValidGrid(g) && Known(g, score) && NoBetter(g, score, queue) && Queued(g, score, closed, queue)
    requires top in queue && top.f <= Estimate(g, score, top.state)
    ensures top.state !in closed && top.f == Estimate(g, score, top.state)
    ensures Queued(g, score, closed + {top.state}, queue - multiset{top})
  {
    assert queue[Item(top.state, Estimate(g, score, top.state))] == queue[top] > 0;
  }

  lemma CloseSettled(g: Grid, score: map<State, real>, closed: set<State>, queue: multiset<Item>, goal: Cell, top: Item)
    requires ValidGrid(g) && Known(g, score) && Settled(g, score, closed, queue, goal)
    requires top in queue && (forall e :: e in queue ==> top.f <= e.f)
    requires top.state in score && top.f == Estimate(g, score, top.state) && top.state.c != goal
    ensures Settled(g, score, closed + {top.state}, queue - multiset{top}, goal)
    ensures forall c :: c in closed ==> Estimate(g, score, c) <= top.f
  {
  }

  lemma TracedStays(g: Grid, score: map<State, real>, cameFrom: map<State, State>, closed: set<State>, s: State,
                    start: State)
    requires ValidGrid(g) && Known(g, score) && closed <= score.Keys && s in score
    requires Traced(g, score, cameFrom, closed, start)
    ensures Traced(g, score, cameFrom, closed + {s}, start)
  {
    forall t | t in score && t != start ensures TracedAt(g, score, cameFrom, closed + {s}, t) {
      assert TracedAt(g, score, cameFrom, closed, t);
    }
  }

  /** Taking a current item off the queue closes its state. */
  lemma Close(g: Grid, f: Front, start: State, goal: Cell, top: Item)
    requires Steady(g, f, start, goal) && Least(f, top)
    requires top.f <= Estimate(g, f.gScore, top.state) && top.state.c != goal
    ensures top.state !in f.closed
    ensures Expanding(g, f.(queue := f.queue - multiset{top}, closed := f.closed + {top.state}), start, goal, top.state)
  {
    TracedStays(g, f.gScore, f.cameFrom, f.closed, top.state, start);
    CloseQueued(g, f.gScore, f.closed, f.queue, top);
    CloseSettled(g, f.gScore, f.closed, f.queue, goal, top);
    SearchingFrom(g, Front(f.gScore, f.cameFrom, f.closed + {top.state}, f.queue - multiset{top}), start, goal);
  }

  /** An expanded state cannot be improved any more. */
  lemma ClosedIsFinal(g: Grid, f: Front, start: State, goal: Cell, cur: State, t: State)
    requires Expanding(g, f, start, goal, cur) && Edge(g, cur, t)
    requires t in f.gScore ==> f.gScore[cur] + EdgeCost(g, cur, t) < f.gScore[t]
    ensures t !in f.closed && t != start
  {
    HeuristicConsistent(g, cur, t);
  }

  lemma ImproveQueued(g: Grid, score: map<State, real>, closed: set<State>, queue: multiset<Item>, t: State, x: real)
    requires ValidGrid(g) && Known(g, score) && NoBetter(g, score, queue) && Queued(g, score, closed, queue)
    requires ValidState(g, t) && t !in closed && (t in score ==> x < score[t])
    ensures Known(g, score[t := x])
    ensures NoBetter(g, score[t := x], queue + multiset{Item(t, x + Heuristic(g, t))})
    ensures Queued(g, score[t := x], closed, queue + multiset{Item(t, x + Heuristic(g, t))})
  {
    var score', item := score[t := x], Item(t, x + Heuristic(g, t));
    assert item !in queue;
    forall s | s in score'
      ensures (queue + multiset{item})[Item(s, Estimate(g, score', s))] == if s in closed then 0 else 1
    {
      if s != t { assert Estimate(g, score', s) == Estimate(g, score, s); }
    }
  }

  lemma ImproveSettled(g: Grid, score: map<State, real>, closed: set<State>, queue: multiset<Item>, goal: Cell,
                       cur: State, t: State, x: real)
    requires ValidGrid(g) && Known(g, score) && Settled(g, score, closed, queue, goal) && cur in closed
    requires forall c :: c in closed ==> Estimate(g, score, c) <= Estimate(g, score, cur)
    requires ValidState(g, t) && t !in closed && Estimate(g, score, cur) <= x + Heuristic(g, t)
    ensures Known(g, score[t := x])
    ensures Settled(g, score[t := x], closed, queue + multiset{Item(t, x + Heuristic(g, t))}, goal)
    ensures forall c :: c in closed ==> Estimate(g, score[t := x], c) == Estimate(g, score, c)
  {
  }

  lemma ImproveTraced(g: Grid, score: map<State, real>, cameFrom: map<State, State>, closed: set<State>, start: State,
                      cur: State, t: State)
    requires ValidGrid(g) && Known(g, score) && closed <= score.Keys && Traced(g, score, cameFrom, closed, start)
    requires cur in closed && Edge(g, cur, t) && t !in closed && t != start
    ensures var score' := score[t := score[cur] + EdgeCost(g, cur, t)];
            Known(g, score') && Traced(g, score', cameFrom[t := cur], closed, start)
  {
    var score', cameFrom' := score[t := score[cur] + EdgeCost(g, cur, t)], cameFrom[t := cur];
    forall u | u in score' && u != start ensures TracedAt(g, score', cameFrom', closed, u) {
      if u != t { assert TracedAt(g, score, cameFrom, closed, u); }
    }
  }

  lemma RelaxedStays(g: Grid, score: map<State, real>, s: State, t: State, x: real)
    requires ValidGrid(g) && Known(g, score) && s in score && Relaxed(g, score, s)
    requires ValidState(g, t) && s != t && (t in score ==> x <= score[t])
    ensures Known(g, score[t := x]) && Relaxed(g, score[t := x], s)
  {
    forall u | Edge(g, s, u) ensures RelaxedAlong(g, score[t := x], s, u) {
      assert RelaxedAlong(g, score, s, u);
    }
  }

  lemma OthersStayRelaxed(g: Grid, f: Front, start: State, goal: Cell, cur: State, t: State, x: real)
    requires Expanding(g, f, start, goal, cur) && ValidState(g, t) && t !in f.closed
    requires t in f.gScore ==> x <= f.gScore[t]
    ensures Known(g, f.gScore[t := x])
    ensures forall s :: s in f.closed && s != cur ==> Relaxed(g, f.gScore[t := x], s)
  {
    forall s | s in f.closed && s != cur ensures Known(g, f.gScore[t := x]) && Relaxed(g, f.gScore[t := x], s) {
      RelaxedStays(g, f.gScore, s, t, x);
    }
  }

  lemma ImproveSearching(g: Grid, f: Front, start: State, goal: Cell, cur: State, t: State, x: real, item: Item)
    requires Searching(g, f, start, goal) && cur in f.closed && Edge(g, cur, t) && t !in f.closed && t != start
    requires forall c :: c in f.closed ==> Estimate(g, f.gScore, c) <= Estimate(g, f.gScore, cur)
    requires x == f.gScore[cur] + EdgeCost(g, cur, t) && (t in f.gScore ==> x < f.gScore[t])
    requires item == Item(t, x + Heuristic(g, t))
    ensures Searching(g, Front(f.gScore[t := x], f.cameFrom[t := cur], f.closed, f.queue + multiset{item}), start, goal)
  {
    HeuristicConsistent(g, cur, t);
    ImproveTraced(g, f.gScore, f.cameFrom, f.closed, start, cur, t);
    ImproveQueued(g, f.gScore, f.closed, f.queue, t, x);
    ImproveSettled(g, f.gScore, f.closed, f.queue, goal, cur, t, x);
    SearchingFrom(g, Front(f.gScore[t := x], f.cameFrom[t := cur], f.closed, f.queue + multiset{item}), start, goal);
  }

  lemma ImproveEstimates(g: Grid, f: Front, start: State, goal: Cell, cur: State, t: State, x: real, item: Item)
    requires Searching(g, f, start, goal) && cur in f.closed && Edge(g, cur, t) && t !in f.closed && t != start
    requires forall c :: c in f.closed ==> Estimate(g, f.gScore, c) <= Estimate(g, f.gScore, cur)
    requires forall e :: e in f.queue ==> Estimate(g, f.gScore, cur) <= e.f
    requires x == f.gScore[cur] + EdgeCost(g, cur, t) && item == Item(t, x + Heuristic(g, t))
    ensures Known(g, f.gScore[t := x])
    ensures forall c :: c in f.closed ==> Estimate(g, f.gScore[t := x], c) <= Estimate(g, f.gScore[t := x], cur)
    ensures forall e :: e in f.queue + multiset{item} ==> Estimate(g, f.gScore[t := x], cur) <= e.f
    ensures RelaxedAlong(g, f.gScore[t := x], cur, t)
  {
    HeuristicConsistent(g, cur, t);
    ImproveSettled(g, f.gScore, f.closed, f.queue, goal, cur, t, x);
  }

  /** Recording a better way to a neighbour keeps the expansion going and relaxes that edge. */
  lemma Improve(g: Grid, f: Front, start: State, goal: Cell, cur: State, t: State, x: real, item: Item, f': Front)
    requires Expanding(g, f, start, goal, cur) && Edge(g, cur, t)
    requires x == f.gScore[cur] + EdgeCost(g, cur, t) && (t in f.gScore ==> x < f.gScore[t])
    requires item == Item(t, x + Heuristic(g, t))
    requires f' == Front(f.gScore[t := x], f.cameFrom[t := cur], f.closed, f.queue + multiset{item})
    ensures Expanding(g, f', start, goal, cur) && RelaxedAlong(g, f'.gScore, cur, t)
  {
    ClosedIsFinal(g, f, start, goal, cur, t);
    ImproveSearching(g, f, start, goal, cur, t, x, item);
    ImproveEstimates(g, f, start, goal, cur, t, x, item);
    OthersStayRelaxed(g, f, start, goal, cur, t, x);
  }

  // ---- What a finished search means ----

  /** Nothing known and unexpanded is estimated below `bound`. */
  ghost predicate Exhausted(g: Grid, f: Front, bound: real)
    requires ValidGrid(g) && Known(g, f.gScore)
  {
    forall s :: s in f.gScore && s !in f.closed ==> Estimate(g, f.gScore, s) >= bound
  }

  /** No path that starts at a known state and reaches the goal beats the bound. */
  lemma {:induction false} NoPathBelow(g: Grid, f: Front, start: State, goal: Cell, bound: real,
                                       cells: seq<Cell>, dir: nat, spent: real)
    requires Steady(g, f, start, goal) && Exhausted(g, f, bound)
    requires Inside(g, goal) && At(g, goal) == g.goal
    requires IsPath(g, cells) && cells[|cells| - 1] == goal && dir < 3
    requires var s := State(cells[0], dir); s in f.gScore && f.gScore[s] <= spent
    ensures spent + CostFrom(g, cells, dir) >= bound
    decreases |cells|
  {
    var s := State(cells[0], dir);
    if s !in f.closed {
      HeuristicAdmissible(g, cells, dir);
    } else {
      var next := DirOf(cells[0], cells[1]);
      var t := State(cells[1], next);
      assert Edge(g, s, t);
      assert RelaxedAlong(g, f.gScore, s, t);
      NoPathBelow(g, f, start, goal, bound, cells[1..], next, spent + StepCost(g, cells[0], dir, cells[1]));
    }
  }
}
