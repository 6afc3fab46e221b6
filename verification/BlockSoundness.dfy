/** A block layout nests and separates its boxes as the diagram nests its blocks. */
module BlockSoundness {
  import opened Wrappers
  import opened BlockGrid
  import opened BlockLayout

  predicate Within(q: Box, p: Box) {
    p.x <= q.x && q.x + q.w <= p.x + p.w && p.y <= q.y && q.y + q.h <= p.y + p.h
  }

  /** Inside a composite: clear of its border on every side and below its title band. */
  predicate InsideGroup(q: Box, p: Box) {
    && p.x + GROUP_PAD <= q.x && q.x + q.w + GROUP_PAD <= p.x + p.w
    && p.y + GROUP_HEADER <= q.y && q.y + q.h + GROUP_PAD <= p.y + p.h
  }

  /** The child of the container `q` belongs to. */
  lemma {:induction false} ChunkOf(d: Diagram, ids: seq<Id>, columns: int, ox: real, oy: real, depth: nat,
                                   path: seq<nat>,
                                   from: nat, q: Placed) returns (k: nat)
    requires ValidDiagram(d) && depth <= MAX_NEST_DEPTH && from <= |ids|
    requires q in PlaceFrom(d, ids, columns, ox, oy, depth, path, from)
    ensures from <= k < |ids| && IsPrefix(path + [k], q.path)
    ensures q == Placed(path + [k], ids[k], ChildBox(d, ids, columns, ox, oy, depth, k)) ||
            (q in PlaceInside(d, ids, columns, ox, oy, depth, path, k) && |q.path| > |path| + 1)
    decreases MAX_NEST_DEPTH + 1 - depth, |ids| - from
  {
    hide ChildBox;
    if q == Placed(path + [from], ids[from], ChildBox(d, ids, columns, ox, oy, depth, from)) {
      k := from;
    } else if q in PlaceInside(d, ids, columns, ox, oy, depth, path, from) {
      k := from;
      InsideHasPrefix(d, ids, columns, ox, oy, depth, path, k, q);
    } else {
      k := ChunkOf(d, ids, columns, ox, oy, depth, path, from + 1, q);
    }
  }

  lemma {:induction false} InsideHasPrefix(d: Diagram, ids: seq<Id>, columns: int, ox: real, oy: real, depth: nat,
                                           path: seq<nat>,
                                           k: nat, q: Placed)
    requires ValidDiagram(d) && depth <= MAX_NEST_DEPTH && k < |ids|
    requires q in PlaceInside(d, ids, columns, ox, oy, depth, path, k)
    ensures IsPrefix(path + [k], q.path) && |q.path| > |path| + 1
    ensures depth < MAX_NEST_DEPTH && ids[k] in d.groups
    decreases MAX_NEST_DEPTH + 1 - depth, 0
  {
    hide ChildBox, PlaceFrom;
    var g, b := d.groups[ids[k]], ChildBox(d, ids, columns, ox, oy, depth, k);
    var m := ChunkOf(d, g.children, g.columns, b.x + GROUP_PAD, b.y + GROUP_HEADER, depth + 1, path + [k], 0, q);
    assert q.path[..|path| + 1] == q.path[..|path| + 2][..|path| + 1];
  }

  /** What is inside a composite is what is placed for its children. */
  lemma InsideIs(d: Diagram, ids: seq<Id>, columns: int, ox: real, oy: real, depth: nat, path: seq<nat>, k: nat, b: Box)
    requires ValidDiagram(d) && depth < MAX_NEST_DEPTH && k < |ids| && ids[k] in d.groups
    requires b == ChildBox(d, ids, columns, ox, oy, depth, k)
    ensures PlaceInside(d, ids, columns, ox, oy, depth, path, k) ==
            PlaceFrom(d, d.groups[ids[k]].children, d.groups[ids[k]].columns, b.x + GROUP_PAD, b.y + GROUP_HEADER,
                      depth + 1,
                      path + [k], 0)
  {
    hide ChildBox, PlaceFrom;
  }

  lemma ContentHolds(d: Diagram, ids: seq<Id>, columns: int, ox: real, oy: real, depth: nat, k: nat)
    requires ValidDiagram(d) && depth <= MAX_NEST_DEPTH && k < |ids|
    ensures var b, e := ChildBox(d, ids, columns, ox, oy, depth, k), MeasureContainer(d, ids, columns, depth);
            ox <= b.x && b.x + b.w <= ox + e.w && oy <= b.y && b.y + b.h <= oy + e.h
  {
    hide CellBox, Items, ItemOf, Content;
    ItemsFitted(d, ids, columns, depth);
    CellInside(Items(d, ids, columns, depth), columns, Pitch(d), k);
  }

  lemma ChildSize(d: Diagram, ids: seq<Id>, columns: int, ox: real, oy: real, depth: nat, k: nat)
    requires ValidDiagram(d) && depth <= MAX_NEST_DEPTH && k < |ids| && ids[k] in d.groups
    ensures var g := d.groups[ids[k]];
            var inner, b := MeasureContainer(d, g.children, g.columns, depth + 1),
                ChildBox(d, ids, columns, ox, oy, depth, k);
            b.w >= inner.w + 2.0 * GROUP_PAD && b.h == inner.h + GROUP_HEADER + GROUP_PAD
  {
    hide MeasureContainer, ItemOf;
    GroupHoldsContent(d, ids[k], columns, depth);
    CellSize(Items(d, ids, columns, depth), columns, Pitch(d), k);
  }

  lemma InsideIsWithin(r: Box, q: Box, p: Box)
    requires InsideGroup(q, p) && (r == q || InsideGroup(r, q))
    ensures InsideGroup(r, p) && Within(r, p)
  {
  }

  /** A composite's own children lie inside its box. */
  lemma ChildInside(d: Diagram, ids: seq<Id>, columns: int, ox: real, oy: real, depth: nat, k: nat, b: Box, m: nat)
    requires ValidDiagram(d) && depth < MAX_NEST_DEPTH && k < |ids| && ids[k] in d.groups
    requires b == ChildBox(d, ids, columns, ox, oy, depth, k) && m < |d.groups[ids[k]].children|
    ensures var g := d.groups[ids[k]];
            InsideGroup(ChildBox(d, g.children, g.columns, b.x + GROUP_PAD, b.y + GROUP_HEADER, depth + 1, m), b)
  {
    hide ChildBox, MeasureContainer, Pitch, ItemOf;
    var g := d.groups[ids[k]];
    ChildSize(d, ids, columns, ox, oy, depth, k);
    ContentHolds(d, g.children, g.columns, b.x + GROUP_PAD, b.y + GROUP_HEADER, depth + 1, m);
  }

  /** What is placed inside a composite lies inside its box. */
  lemma {:induction false} InsideIsInside(d: Diagram, ids: seq<Id>, columns: int, ox: real, oy: real, depth: nat,
                                          path: seq<nat>,
                                          k: nat, q: Placed)
    requires ValidDiagram(d) && depth <= MAX_NEST_DEPTH && k < |ids|
    requires q in PlaceInside(d, ids, columns, ox, oy, depth, path, k)
    ensures InsideGroup(q.box, ChildBox(d, ids, columns, ox, oy, depth, k))
    decreases MAX_NEST_DEPTH + 1 - depth
  {
    hide ChildBox, PlaceFrom, PlaceInside, PlaceAll, MeasureContainer, InsideGroup, IsPrefix;
    InsideHasPrefix(d, ids, columns, ox, oy, depth, path, k, q);
    var g, b := d.groups[ids[k]], ChildBox(d, ids, columns, ox, oy, depth, k);
    InsideIs(d, ids, columns, ox, oy, depth, path, k, b);
    var x, y := b.x + GROUP_PAD, b.y + GROUP_HEADER;
    var m := ChunkOf(d, g.children, g.columns, x, y, depth + 1, path + [k], 0, q);
    var c := ChildBox(d, g.children, g.columns, x, y, depth + 1, m);
    ChildInside(d, ids, columns, ox, oy, depth, k, b, m);
    if q.box != c { InsideIsInside(d, g.children, g.columns, x, y, depth + 1, path + [k], m, q); }
    InsideIsWithin(q.box, c, b);
  }

  lemma StillApart(a: Box, b: Box, p: Box, q: Box)
    requires Apart(a, b) && (p == a || InsideGroup(p, a)) && (q == b || InsideGroup(q, b))
    ensures Apart(p, q)
  {
  }

  lemma ChildrenApart(d: Diagram, ids: seq<Id>, columns: int, ox: real, oy: real, depth: nat, i: nat, j: nat)
    requires ValidDiagram(d) && depth <= MAX_NEST_DEPTH && i < |ids| && j < |ids| && i != j
    ensures Apart(ChildBox(d, ids, columns, ox, oy, depth, i), ChildBox(d, ids, columns, ox, oy, depth, j))
  {
    hide CellBox, Items, ItemOf;
    ItemsFitted(d, ids, columns, depth);
    SiblingsApart(Items(d, ids, columns, depth), columns, Pitch(d), if i < j then i else j, if i < j then j else i);
  }

  lemma PrefixesDiffer(path: seq<nat>, a: nat, b: nat, p: seq<nat>, q: seq<nat>)
    requires IsPrefix(path + [a], p) && IsPrefix(path + [b], q)
    ensures p[|path|] == a && q[|path|] == b
    ensures a != b ==> !IsPrefix(p, q) && !IsPrefix(q, p)
  {
    assert p[|path|] == p[..|path| + 1][|path|] && q[|path|] == q[..|path| + 1][|path|];
    if IsPrefix(p, q) { assert q[..|p|][|path|] == q[|path|]; }
    if IsPrefix(q, p) { assert p[..|q|][|path|] == p[|path|]; }
  }

  /** A box of one composite encloses everything under it, and boxes of which neither is under the other keep at least
  the gap between them, for every diagram, column count and span, however deep. */
  lemma {:induction false} LayoutIsSound(d: Diagram, ids: seq<Id>, columns: int, ox: real, oy: real, depth: nat,
                                         path: seq<nat>,
                                         p: Placed, q: Placed)
    requires ValidDiagram(d)
    requires p in PlaceAll(d, ids, columns, ox, oy, depth, path) && q in PlaceAll(d, ids, columns, ox, oy, depth, path)
    ensures !IsPrefix(p.path, q.path) && !IsPrefix(q.path, p.path) ==> Apart(p.box, q.box)
    ensures IsPrefix(p.path, q.path) && p.path != q.path ==> InsideGroup(q.box, p.box)
    ensures p.path == q.path ==> p == q
    decreases if depth > MAX_NEST_DEPTH then 0 else MAX_NEST_DEPTH + 1 - depth
  {
    hide PlaceFrom, ChildBox, IsPrefix, Apart, InsideGroup;
    var i := ChunkOf(d, ids, columns, ox, oy, depth, path, 0, p);
    var j := ChunkOf(d, ids, columns, ox, oy, depth, path, 0, q);
    PrefixesDiffer(path, i, j, p.path, q.path);
    if i != j {
      DifferentChildren(d, ids, columns, ox, oy, depth, path, p, q, i, j);
      SelfPrefix(p.path);
    } else {
      SameChild(d, ids, columns, ox, oy, depth, path, p, q, i);
    }
  }

  lemma SelfPrefix(a: seq<nat>)
    ensures IsPrefix(a, a)
  {
  }

  lemma LongerIsNotPrefix(a: seq<nat>, b: seq<nat>)
    requires |a| > |b|
    ensures !IsPrefix(a, b) && a != b
  {
  }

  lemma DifferentChildren(d: Diagram, ids: seq<Id>, columns: int, ox: real, oy: real, depth: nat, path: seq<nat>,
                          p: Placed, q: Placed, i: nat, j: nat)
    requires ValidDiagram(d) && depth <= MAX_NEST_DEPTH && i < |ids| && j < |ids| && i != j
    requires p.box == ChildBox(d, ids, columns, ox, oy, depth, i) ||
             p in PlaceInside(d, ids, columns, ox, oy, depth, path, i)
    requires q.box == ChildBox(d, ids, columns, ox, oy, depth, j) ||
             q in PlaceInside(d, ids, columns, ox, oy, depth, path, j)
    ensures Apart(p.box, q.box)
  {
    hide ChildBox, PlaceInside;
    ChildrenApart(d, ids, columns, ox, oy, depth, i, j);
    if p.box != ChildBox(d, ids, columns, ox, oy, depth, i) {
      InsideIsInside(d, ids, columns, ox, oy, depth, path, i, p);
    }
    if q.box != ChildBox(d, ids, columns, ox, oy, depth, j) {
      InsideIsInside(d, ids, columns, ox, oy, depth, path, j, q);
    }
    StillApart(ChildBox(d, ids, columns, ox, oy, depth, i), ChildBox(d, ids, columns, ox, oy, depth, j), p.box, q.box);
  }

  lemma {:induction false} SameChild(d: Diagram, ids: seq<Id>, columns: int, ox: real, oy: real, depth: nat,
                                     path: seq<nat>,
                                     p: Placed, q: Placed, k: nat)
    requires ValidDiagram(d) && depth <= MAX_NEST_DEPTH && k < |ids|
    requires var head := Placed(path + [k], ids[k], ChildBox(d, ids, columns, ox, oy, depth, k));
             && (p == head || (p in PlaceInside(d, ids, columns, ox, oy, depth, path, k) && |p.path| > |path| + 1))
             && (q == head || (q in PlaceInside(d, ids, columns, ox, oy, depth, path, k) && |q.path| > |path| + 1))
    requires IsPrefix(path + [k], p.path) && IsPrefix(path + [k], q.path)
    ensures !IsPrefix(p.path, q.path) && !IsPrefix(q.path, p.path) ==> Apart(p.box, q.box)
    ensures IsPrefix(p.path, q.path) && p.path != q.path ==> InsideGroup(q.box, p.box)
    ensures p.path == q.path ==> p == q
    decreases if depth > MAX_NEST_DEPTH then 0 else MAX_NEST_DEPTH + 1 - depth, 0
  {
    hide PlaceAll, ChildBox, IsPrefix, Apart, InsideGroup;
    var head := Placed(path + [k], ids[k], ChildBox(d, ids, columns, ox, oy, depth, k));
    if p == head && q == head {
    } else if p == head {
      InsideIsInside(d, ids, columns, ox, oy, depth, path, k, q);
    } else if q == head {
      LongerIsNotPrefix(p.path, q.path);
    } else {
      var g, b := d.groups[ids[k]], ChildBox(d, ids, columns, ox, oy, depth, k);
      InsideHasPrefix(d, ids, columns, ox, oy, depth, path, k, p);
      LayoutIsSound(d, g.children, g.columns, b.x + GROUP_PAD, b.y + GROUP_HEADER, depth + 1, path + [k], p, q);
    }
  }

  // ---- Nothing is left out ----

  lemma {:induction false} ChildIsPlaced(d: Diagram, ids: seq<Id>, columns: int, ox: real, oy: real, depth: nat,
                                         path: seq<nat>,
                                         from: nat, k: nat)
    requires ValidDiagram(d) && depth <= MAX_NEST_DEPTH && from <= k < |ids|
    ensures Placed(path + [k], ids[k], ChildBox(d, ids, columns, ox, oy, depth, k)) in
            PlaceFrom(d, ids, columns, ox, oy, depth, path, from)
    ensures forall q :: q in PlaceInside(d, ids, columns, ox, oy, depth, path, k) ==>
              q in PlaceFrom(d, ids, columns, ox, oy, depth, path, from)
    decreases k - from
  {
    hide ChildBox, PlaceInside;
    if from < k { ChildIsPlaced(d, ids, columns, ox, oy, depth, path, from + 1, k); }
  }

  /** Within the cap, every child of a placed composite is placed too. */
  lemma {:induction false} EveryChildPlaced(d: Diagram, ids: seq<Id>, columns: int, ox: real, oy: real, depth: nat,
                                            path: seq<nat>,
                                            p: Placed, m: nat) returns (q: Placed)
    requires ValidDiagram(d) && !TooDeep(d, ids, depth)
    requires p in PlaceAll(d, ids, columns, ox, oy, depth, path) && p.id in d.groups && m < |d.groups[p.id].children|
    ensures q in PlaceAll(d, ids, columns, ox, oy, depth, path)
    ensures q.path == p.path + [m] && q.id == d.groups[p.id].children[m]
    decreases if depth > MAX_NEST_DEPTH then 0 else MAX_NEST_DEPTH + 1 - depth
  {
    hide ChildBox, PlaceFrom, IsPrefix, PlaceInside;
    var k := ChunkOf(d, ids, columns, ox, oy, depth, path, 0, p);
    ChildIsPlaced(d, ids, columns, ox, oy, depth, path, 0, k);
    if p in PlaceInside(d, ids, columns, ox, oy, depth, path, k) {
      InsideHasPrefix(d, ids, columns, ox, oy, depth, path, k, p);
    }
    var g, b := d.groups[ids[k]], ChildBox(d, ids, columns, ox, oy, depth, k);
    var x, y := b.x + GROUP_PAD, b.y + GROUP_HEADER;
    assert !TooDeep(d, g.children, depth + 1);
    InsideIs(d, ids, columns, ox, oy, depth, path, k, b);
    if p in PlaceInside(d, ids, columns, ox, oy, depth, path, k) {
      q := EveryChildPlaced(d, g.children, g.columns, x, y, depth + 1, path + [k], p, m);
    } else {
      ChildIsPlaced(d, g.children, g.columns, x, y, depth + 1, path + [k], 0, m);
      q := Placed(path + [k] + [m], g.children[m], ChildBox(d, g.children, g.columns, x, y, depth + 1, m));
    }
    assert q in PlaceInside(d, ids, columns, ox, oy, depth, path, k);
  }
}
