/** Nested boxes for C4 elements: boundaries wrap their children, siblings sit in rows. */
module C4Layout {
  import opened Wrappers
  import opened ParentForest
  import opened Nesting
  import opened Reach
  import opened Arrangement

  const PADDING := 16.0
  const HEADER := 26.0
  const GAP := 64.0
  const LEAF_HEIGHT := 56.0

  const M := Margins(GAP, PADDING, HEADER)

  ghost predicate PlacedKids(els: seq<Element>, path: Path, placed: seq<Placed>, left: real, top: real, right: real,
                             bottom: real)
  {
    NestedIn(M, placed, path, left, top, right, bottom) && AllBelow(els, {}, placed, path) && LeavesFit(els, placed)
  }

  /** An element without children has a box as wide as its label. */
  ghost predicate LeafFits(els: seq<Element>, p: Placed) {
    p.path != [] && Last(p.path) < |els| &&
    (KidsOf(els, p.path) == [] ==> p.box.w == els[Last(p.path)].width && p.box.h == LEAF_HEIGHT)
  }

  ghost predicate LeavesFit(els: seq<Element>, placed: seq<Placed>) { forall p :: p in placed ==> LeafFits(els, p) }

  /** The children of a boundary stand in squarish rows, and the boundary is drawn close around them. */
  ghost predicate Arranged(els: seq<Element>, placed: seq<Placed>, p: Placed) {
    && p.path != [] && Last(p.path) < |els|
    && (KidsOf(els, p.path) != [] ==> exists boxes, columns :: KidsArranged(els, placed, p, boxes, columns))
  }

  ghost predicate KidsArranged(els: seq<Element>, placed: seq<Placed>, p: Placed, boxes: seq<Box>, columns: nat)
    requires p.path != [] && Last(p.path) < |els|
  {
    && KidsAt(placed, p.path, KidsOf(els, p.path), boxes) && Squarish(|boxes|, columns)
    && InRows(64.0, boxes, p.box.x + 16.0, p.box.y + 26.0, columns)
    && Snug(boxes, p.box.x + p.box.w - 16.0, p.box.y + p.box.h - 16.0)
  }

  ghost predicate AllArranged(els: seq<Element>, placed: seq<Placed>) {
    forall p :: p in placed ==> Arranged(els, placed, p)
  }

  lemma ArrangedStill(els: seq<Element>, placed: seq<Placed>, more: seq<Placed>)
    requires AllArranged(els, placed) && AllArranged(els, more)
    ensures AllArranged(els, placed + more)
  {
    hide InRows, Snug, Squarish, KidsAt;
    forall p | p in placed + more ensures Arranged(els, placed + more, p) {
      var was := if p in placed then placed else more;
      assert Arranged(els, was, p);
      if KidsOf(els, p.path) != [] {
        var boxes, columns :| KidsArranged(els, was, p, boxes, columns);
        KidsStillAt(placed, more, p.path, KidsOf(els, p.path), boxes);
        assert KidsArranged(els, placed + more, p, boxes, columns);
      }
    }
  }

  /** A boundary is drawn around its arranged children. */
  lemma AroundArranged(els: seq<Element>, inner: seq<Placed>, p: Placed, boxes: seq<Box>, columns: nat)
    requires AllArranged(els, inner) && p.path != [] && Last(p.path) < |els|
    requires KidsArranged(els, inner, p, boxes, columns)
    ensures AllArranged(els, inner + [p])
  {
    hide InRows, Snug, Squarish, KidsAt;
    KidsStillAt(inner, [p], p.path, KidsOf(els, p.path), boxes);
    assert KidsArranged(els, inner + [p], p, boxes, columns);
    forall q | q in inner ensures Arranged(els, inner + [p], q) {
      assert Arranged(els, inner, q);
      if KidsOf(els, q.path) != [] {
        var bs, cs :| KidsArranged(els, inner, q, bs, cs);
        KidsStillAt(inner, [p], q.path, KidsOf(els, q.path), bs);
        assert KidsArranged(els, inner + [p], q, bs, cs);
      }
    }
  }

  lemma AllKidsPlaced(els: seq<Element>, path: Path, kids: seq<nat>, placed: seq<Placed>, boxes: seq<Box>,
                      left: real, top: real, rowX: real, rowY: real, rowH: real, right: real, bottom: real)
    requires (path == [] || Last(path) < |els|) && kids == KidsOf(els, path) && |boxes| == |kids|
    requires LeavesFit(els, placed) && Sound(M, placed) && Once(placed) && OfKids(M, placed, path, kids, boxes)
    requires CompleteKids(els, {}, placed, path, kids, |kids|)
    requires Rows(M, boxes, left, top, rowX, rowY, rowH, right, bottom)
    ensures PlacedKids(els, path, placed, left, top, right, bottom)
  {
    KidsAreAll(els, {}, placed, path, kids);
    KidsNested(M, path, kids, placed, boxes, left, top, right, bottom);
  }

  /** What is placed for the first children of a container. */
  ghost predicate KidsSoFar(els: seq<Element>, path: Path, kids: seq<nat>, placed: seq<Placed>, boxes: seq<Box>) {
    && |boxes| <= |kids| && Sound(M, placed) && Once(placed) && OfKids(M, placed, path, kids, boxes)
    && LeavesFit(els, placed) && CompleteKids(els, {}, placed, path, kids, |boxes|)
    && AllArranged(els, placed) && KidsAt(placed, path, kids[..|boxes|], boxes)
  }

  /** What is placed for one element. */
  ghost predicate PlacedAt(els: seq<Element>, path: Path, box: Box, placed: seq<Placed>) {
    && Sound(M, placed) && Once(placed) && Complete(els, {}, placed, path) && LeavesFit(els, placed)
    && (forall q :: q in placed ==> IsPrefix(path, q.path) && (q.box == box || InsideBoundary(M, q.box, box)))
    && AllArranged(els, placed) && Placed(path, box) in placed
  }

  lemma NextKid(els: seq<Element>, path: Path, kids: seq<nat>, placed: seq<Placed>, boxes: seq<Box>, box: Box,
                more: seq<Placed>)
    requires Distinct(kids) && KidsSoFar(els, path, kids, placed, boxes) && |boxes| < |kids|
    requires PlacedAt(els, path + [kids[|boxes|]], box, more)
    requires forall k :: 0 <= k < |boxes| ==> Apart(M, boxes[k], box)
    ensures KidsSoFar(els, path, kids, placed + more, boxes + [box])
  {
    hide Sound, Once, OfKids, CompleteKids, Complete, Apart, LeafFits, AllArranged, KidsAt, IsPrefix, InsideBoundary;
    hide Distinct;
    AddKidSound(M, path, kids, boxes, box, placed, more);
    AddKidOf(M, path, kids, boxes, box, placed, more);
    AddKidComplete(els, {}, placed, more, path, kids, |boxes|);
    OneMoreAt(placed, more, path, kids, boxes, box);
    ArrangedStill(els, placed, more);
  }

  /** Where the row being filled began and where the next box goes, and how far the boxes reach. */
  datatype Cursor = Cursor(start: nat, x: real, y: real, height: real, right: real, bottom: real)

  ghost predicate Reaches(boxes: seq<Box>, left: real, top: real, at: Cursor) {
    if boxes == [] then at.right == left && at.bottom == top else Snug(boxes, at.right, at.bottom)
  }

  /** The boxes stand in rows, and the cursor is behind the last of them. */
  ghost predicate Standing(boxes: seq<Box>, left: real, top: real, columns: nat, at: Cursor) {
    && columns > 0 && InRows(GAP, boxes, left, top, columns) &&
        Filling(GAP, boxes, at.start, left, at.x, at.y, at.height)
    && at.start % columns == 0 && at.start <= |boxes| <= at.start + columns
    && (if boxes == [] then at.x == left && at.y == top else at.start < |boxes|) && Reaches(boxes, left, top, at)
  }

  /** And the next box goes to the cursor. */
  ghost predicate Ready(boxes: seq<Box>, left: real, top: real, columns: nat, at: Cursor) {
    && columns > 0 && InRows(GAP, boxes, left, top, columns) &&
        Filling(GAP, boxes, at.start, left, at.x, at.y, at.height)
    && at.start % columns == 0 && at.start <= |boxes| < at.start + columns && Reaches(boxes, left, top, at)
    && (if boxes == [] then at.x == left && at.y == top
        else if |boxes| % columns != 0 then at.start < |boxes|
        else at.start == |boxes| && BelowRow(GAP, boxes, |boxes| - 1, columns, at.y))
  }

  function Wrapped(at: Cursor, i: nat, left: real): Cursor {
    at.(start := i, x := left, y := at.y + at.height + GAP, height := 0.0)
  }

  function Advanced(at: Cursor, box: Box): Cursor {
    at.(x := at.x + box.w + GAP, height := Max(at.height, box.h), right := Max(at.right, box.x + box.w),
        bottom := Max(at.bottom, box.y + box.h))
  }

  lemma GetReady(boxes: seq<Box>, left: real, top: real, columns: nat, at: Cursor)
    requires Standing(boxes, left, top, columns, at)
    ensures var next := if |boxes| > 0 && |boxes| % columns == 0 then Wrapped(at, |boxes|, left) else at;
            Ready(boxes, left, top, columns, next)
  {
    hide InRows, BelowRow, Snug;
    if boxes != [] {
      RowPhase(at.start, |boxes|, columns);
      if |boxes| % columns == 0 { RowEnds(GAP, boxes, at.start, left, at.x, at.y, at.height, columns); }
    }
  }

  lemma Stand(boxes: seq<Box>, left: real, top: real, columns: nat, at: Cursor, box: Box)
    requires Ready(boxes, left, top, columns, at)
    requires box.x == at.x && box.y == at.y && box.w >= 0.0 && box.h > 0.0 && box.x >= left
    ensures Standing(boxes + [box], left, top, columns, Advanced(at, box))
  {
    if boxes != [] { FollowsCursor(boxes, left, top, columns, at, box); }
    hide InRows, BelowRow, Snug, Follows;
    FillOn(GAP, boxes, at.start, left, at.x, at.y, at.height, box);
    AddToRows(GAP, boxes, box, left, top, columns);
    SnugOn(boxes, at.right, at.bottom, box);
    hide Filling;
  }

  lemma FollowsCursor(boxes: seq<Box>, left: real, top: real, columns: nat, at: Cursor, box: Box)
    requires Ready(boxes, left, top, columns, at) && box.x == at.x && box.y == at.y && boxes != []
    ensures Follows(GAP, boxes, |boxes| - 1, box, left, columns)
  {
  }

  /** The first children are placed, in rows up to the cursor. */
  ghost predicate SoFar(els: seq<Element>, path: Path, kids: seq<nat>, placed: seq<Placed>, boxes: seq<Box>, left: real,
                        top: real, columns: nat, at: Cursor)
  {
    && KidsSoFar(els, path, kids, placed, boxes) && Standing(boxes, left, top, columns, at)
    && Rows(M, boxes, left, top, at.x, at.y, at.height, at.right, at.bottom)
  }

  /** A row is full, and another child follows. */
  predicate Wraps(i: nat, columns: nat)
    requires columns > 0
  {
    i > 0 && i % columns == 0
  }

  ghost predicate CanGoTo(boxes: seq<Box>, left: real, top: real, columns: nat, at: Cursor) {
    Ready(boxes, left, top, columns, at) && Rows(M, boxes, left, top, at.x, at.y, at.height, at.right, at.bottom)
  }

  lemma WrapOrNot(els: seq<Element>, path: Path, kids: seq<nat>, placed: seq<Placed>, boxes: seq<Box>, left: real,
                  top: real, columns: nat, at: Cursor)
    requires SoFar(els, path, kids, placed, boxes, left, top, columns, at)
    ensures columns > 0 && KidsSoFar(els, path, kids, placed, boxes)
    ensures CanGoTo(boxes, left, top, columns, if Wraps(|boxes|, columns) then Wrapped(at, |boxes|, left) else at)
  {
    hide Rows, Ready, KidsSoFar;
    GetReady(boxes, left, top, columns, at);
    WrapKeepsRows(M, boxes, left, top, at.x, at.y, at.height, at.right, at.bottom, at.y + at.height + GAP);
  }

  lemma OneMoreKid(els: seq<Element>, path: Path, kids: seq<nat>, placed: seq<Placed>, boxes: seq<Box>, left: real,
                   top: real, columns: nat, at: Cursor, box: Box, more: seq<Placed>)
    requires Distinct(kids) && |boxes| < |kids| && KidsSoFar(els, path, kids, placed, boxes)
    requires CanGoTo(boxes, left, top, columns, at)
    requires box.x == at.x && box.y == at.y && box.w >= 0.0 && box.h > 0.0
    requires PlacedAt(els, path + [kids[|boxes|]], box, more)
    ensures SoFar(els, path, kids, placed + more, boxes + [box], left, top, columns, Advanced(at, box))
  {
    hide Distinct, KidsSoFar, Ready, Standing, PlacedAt, Rows, Apart;
    RowsStart(boxes, left, top, at.x, at.y, at.height, at.right, at.bottom);
    NextInRow(M, boxes, box, left, top, at.x, at.y, at.height, at.right, at.bottom);
    Stand(boxes, left, top, columns, at, box);
    NextKid(els, path, kids, placed, boxes, box, more);
  }

  /** The children of one container, row by row. */
  method PlaceKids(els: seq<Element>, path: Path, kids: seq<nat>, left: real, top: real, columns: nat)
    returns (placed: seq<Placed>, right: real, bottom: real, ghost boxes: seq<Box>)
    requires Unique(els) && Opened(els, {}, path) && kids == KidsOf(els, path) && |path| <= |els| && columns > 0
    requires forall e :: e in els ==> e.width >= 0.0
    ensures PlacedKids(els, path, placed, left, top, right, bottom) && right >= left && bottom >= top
    ensures AllArranged(els, placed) && KidsAt(placed, path, kids, boxes) && InRows(GAP, boxes, left, top, columns)
    ensures kids != [] ==> Snug(boxes, right, bottom)
    decreases |els| - |path|, 0
  {
    placed, boxes := [], [];
    var rowX, rowY, rowH := left, top, 0.0;
    right, bottom := left, top;
    ghost var start := 0;
    hide SoFar, KidsSoFar, CanGoTo, Ready, Rows, Opened, Unique, Reached, PlacedKids, PlacedAt, AllArranged, KidsAt,
        InRows, Snug, KidsOf, Kids, Distinct, Standing, Wraps;
    NoKids(els, path, left, top, columns);
    for i := 0 to |kids|
      invariant |boxes| == i && right >= left && bottom >= top
      invariant SoFar(els, path, kids, placed, boxes, left, top, columns,
                      Cursor(start, rowX, rowY, rowH, right, bottom))
    {
      WrapOrNot(els, path, kids, placed, boxes, left, top, columns, Cursor(start, rowX, rowY, rowH, right, bottom));
      if Wraps(i, columns) {
        rowX, rowY, rowH, start := left, rowY + rowH + GAP, 0.0, i;
      }
      KidPath(els, path, kids[i]);
      var kidBox, more := Place(els, path + [kids[i]], rowX, rowY);
      OneMoreKid(els, path, kids, placed, boxes, left, top, columns, Cursor(start, rowX, rowY, rowH, right, bottom),
                 kidBox, more);
      placed, boxes := placed + more, boxes + [kidBox];
      rowX, rowH := rowX + kidBox.w + GAP, Max(rowH, kidBox.h);
      right, bottom := Max(right, kidBox.x + kidBox.w), Max(bottom, kidBox.y + kidBox.h);
    }
    KidsDone(els, path, kids, placed, boxes, left, top, columns, Cursor(start, rowX, rowY, rowH, right, bottom));
  }

  lemma RowsStart(boxes: seq<Box>, left: real, top: real, rowX: real, rowY: real, rowH: real, right: real, bottom: real)
    requires Rows(M, boxes, left, top, rowX, rowY, rowH, right, bottom)
    ensures rowX >= left
  {
  }

  lemma KidsDone(els: seq<Element>, path: Path, kids: seq<nat>, placed: seq<Placed>, boxes: seq<Box>, left: real,
                 top: real, columns: nat, at: Cursor)
    requires (path == [] || Last(path) < |els|) && kids == KidsOf(els, path) && |boxes| == |kids|
    requires SoFar(els, path, kids, placed, boxes, left, top, columns, at)
    ensures AllArranged(els, placed) && KidsAt(placed, path, kids, boxes)
    ensures columns > 0 && InRows(GAP, boxes, left, top, columns)
    ensures kids != [] ==> Snug(boxes, at.right, at.bottom)
    ensures PlacedKids(els, path, placed, left, top, at.right, at.bottom)
  {
    hide KidsOf, AllArranged, KidsAt, InRows, Snug, LeavesFit, Sound, Once, OfKids, CompleteKids, Rows, PlacedKids,
        Filling;
    assert kids[..|kids|] == kids;
    AllKidsPlaced(els, path, kids, placed, boxes, left, top, at.x, at.y, at.height, at.right, at.bottom);
  }

  lemma NoKids(els: seq<Element>, path: Path, left: real, top: real, columns: nat)
    requires Opened(els, {}, path) && columns > 0
    ensures SoFar(els, path, KidsOf(els, path), [], [], left, top, columns, Cursor(0, left, top, 0.0, left, top))
    ensures (path == [] || Last(path) < |els|) && Distinct(KidsOf(els, path))
  {
  }

  lemma KidPath(els: seq<Element>, path: Path, kid: nat)
    requires Unique(els) && Opened(els, {}, path) && kid in KidsOf(els, path)
    ensures Reached(els, {}, path + [kid]) && |path| < |els| && (path == [] || Last(path) < |els|)
  {
    KidReached(els, {}, path, kid);
    PathIsShort(els, path + [kid]);
  }

  lemma AroundKids(els: seq<Element>, path: Path, inner: seq<Placed>, box: Box, right: real, bottom: real)
    requires Reached(els, {}, path) && PlacedKids(els, path, inner, box.x + PADDING, box.y + HEADER, right, bottom)
    requires box.w == right - box.x + PADDING && box.h == bottom - box.y + PADDING
    ensures Sound(M, inner + [Placed(path, box)]) && Once(inner + [Placed(path, box)])
    ensures Complete(els, {}, inner + [Placed(path, box)], path)
    ensures forall q :: q in inner ==> IsPrefix(path, q.path) && InsideBoundary(M, q.box, box)
  {
    AroundSound(M, path, inner, box, right, bottom);
    AroundComplete(els, {}, inner, Placed(path, box));
  }

  lemma ReachedEnds(els: seq<Element>, path: Path)
    requires Reached(els, {}, path)
    ensures path != [] && Last(path) < |els| && IsPrefix(path, path)
  {
  }

  lemma LeafPlaced(els: seq<Element>, path: Path, box: Box)
    requires Reached(els, {}, path) && KidsOf(els, path) == []
    requires box.w == els[Last(path)].width && box.h == LEAF_HEIGHT
    ensures PlacedAt(els, path, box, [Placed(path, box)])
  {
    assert Last(path) < |els| && IsPrefix(path, path);
    hide Reached, Sound, Complete, KidsOf;
    OneIsSound(M, Placed(path, box));
    LeafComplete(els, {}, Placed(path, box));
    assert Arranged(els, [Placed(path, box)], Placed(path, box));
  }

  lemma BoundaryPlaced(els: seq<Element>, path: Path, inner: seq<Placed>, box: Box, right: real, bottom: real,
                       boxes: seq<Box>, columns: nat)
    requires Reached(els, {}, path) && PlacedKids(els, path, inner, box.x + PADDING, box.y + HEADER, right, bottom)
    requires box.w == right - box.x + PADDING && box.h == bottom - box.y + PADDING
    requires KidsOf(els, path) != [] && AllArranged(els, inner) && KidsAt(inner, path, KidsOf(els, path), boxes)
    requires columns > 0 && Squarish(|boxes|, columns) && Snug(boxes, right, bottom)
    requires InRows(GAP, boxes, box.x + PADDING, box.y + HEADER, columns)
    ensures PlacedAt(els, path, box, inner + [Placed(path, box)])
  {
    hide Reached, Sound, Once, Complete, KidsOf, AllArranged, KidsAt, InRows, Snug, Squarish, AllBelow, NestedIn;
    ReachedEnds(els, path);
    AroundKids(els, path, inner, box, right, bottom);
    AroundArranged(els, inner, Placed(path, box), boxes, columns);
  }

  /** One element: a leaf as wide as its label, or a boundary around its children. No cap on the depth is needed. */
  method Place(els: seq<Element>, path: Path, x: real, y: real) returns (box: Box, placed: seq<Placed>)
    requires Unique(els) && Reached(els, {}, path) && |path| <= |els|
    requires forall e :: e in els ==> e.width >= 0.0
    ensures box.x == x && box.y == y && box.w >= 0.0 && box.h > 0.0 && PlacedAt(els, path, box, placed)
    decreases |els| - |path|, 1
  {
    hide PlacedAt, PlacedKids, AllArranged, KidsAt, InRows, Snug;
    var kids := KidsOf(els, path);
    if |kids| == 0 {
      box := Box(x, y, els[Last(path)].width, LEAF_HEIGHT);
      placed := [Placed(path, box)];
      assert els[Last(path)] in els;
      LeafPlaced(els, path, box);
      return;
    }
    var columns := CeilSqrt(|kids|, 0);
    columns := if columns < 1 then 1 else columns;
    var inner, right, bottom;
    ghost var boxes;
    inner, right, bottom, boxes := PlaceKids(els, path, kids, x + PADDING, y + HEADER, columns);
    box := Box(x, y, right - x + PADDING, bottom - y + PADDING);
    placed := inner + [Placed(path, box)];
    SameCount(inner, path, kids, boxes);
    BoundaryPlaced(els, path, inner, box, right, bottom, boxes, columns);
  }

  lemma SameCount(placed: seq<Placed>, path: Path, kids: seq<nat>, boxes: seq<Box>)
    requires KidsAt(placed, path, kids, boxes)
    ensures |boxes| == |kids|
  {
  }

  // ---- The whole diagram ----

  datatype Result = Laid(placed: seq<Placed>) | Duplicate(id: Id) | Unplaced(id: Id)

  method CheckUnique(els: seq<Element>) returns (twin: Option<Id>)
    ensures twin.None? <==> Unique(els)
  {
    var ids: set<Id> := {};
    for i := 0 to |els|
      invariant Unique(els[..i]) && forall id :: id in ids <==> exists k :: 0 <= k < i && els[k].id == id
    {
      if els[i].id in ids {
        var k :| 0 <= k < i && els[k].id == els[i].id;
        return Some(els[i].id);
      }
      assert forall k :: 0 <= k < i ==> els[k].id != els[i].id;
      ids := ids + {els[i].id};
    }
    assert els[..|els|] == els;
    twin := None;
  }

  /** A box was placed for element `i`. */
  predicate Ends(path: Path, i: nat) { path != [] && Last(path) == i }

  method HasBox(placed: seq<Placed>, i: nat) returns (found: bool)
    ensures found <==> exists m :: 0 <= m < |placed| && Ends(placed[m].path, i)
  {
    found := false;
    for k := 0 to |placed|
      invariant found <==> exists m :: 0 <= m < k && Ends(placed[m].path, i)
    {
      if Ends(placed[k].path, i) { found := true; }
    }
  }

  /** Looks for the box of every element. */
  method FindUnplaced(els: seq<Element>, placed: seq<Placed>) returns (missing: Option<Id>)
    requires AllPaths(els, placed)
    ensures missing.None? <==> forall i :: 0 <= i < |els| ==> Rooted(els, i)
  {
    hide AllPaths, Ends, Rooted;
    for i := 0 to |els|
      invariant forall k :: 0 <= k < i ==> Rooted(els, k)
    {
      var found := HasBox(placed, i);
      RootedIsPlaced(els, placed, i);
      if !found { return Some(els[i].id); }
    }
    return None;
  }

  /** Exactly the paths from a root are placed. */
  ghost predicate AllPaths(els: seq<Element>, placed: seq<Placed>) {
    forall q :: HasPath(placed, q) <==> IsPath(els, q)
  }

  lemma PlacedPaths(els: seq<Element>, placed: seq<Placed>, left: real, top: real, right: real, bottom: real)
    requires PlacedKids(els, [], placed, left, top, right, bottom)
    ensures AllPaths(els, placed) && Sound(M, placed) && Once(placed) && LeavesFit(els, placed)
  {
    forall q: Path ensures HasPath(placed, q) <==> IsPath(els, q) { assert IsPrefix([], q); }
  }

  lemma RootedIsPlaced(els: seq<Element>, placed: seq<Placed>, i: nat)
    requires AllPaths(els, placed)
    ensures Rooted(els, i) <==> exists m :: 0 <= m < |placed| && Ends(placed[m].path, i)
  {
    if Rooted(els, i) {
      var path :| IsPath(els, path) && Last(path) == i;
      assert HasPath(placed, path);
      var p :| p in placed && p.path == path;
      var m :| 0 <= m < |placed| && placed[m] == p;
    }
    if m :| 0 <= m < |placed| && Ends(placed[m].path, i) {
      assert HasPath(placed, placed[m].path);
    }
  }

  /** The top-level elements stand side by side in one row. */
  ghost predicate RootsInRow(els: seq<Element>, placed: seq<Placed>) {
    exists boxes :: KidsAt(placed, [], KidsOf(els, []), boxes) && Beside(64.0, boxes, 0.0, 0.0)
  }

  lemma InOneRow(boxes: seq<Box>)
    requires InRows(GAP, boxes, 0.0, 0.0, |boxes| + 1)
    ensures Beside(64.0, boxes, 0.0, 0.0)
  {
    forall k | 0 <= k < |boxes| ensures boxes[k].y == 0.0 { RowUpTo(boxes, k); }
    forall k | 0 <= k < |boxes| - 1 ensures boxes[k + 1].x == boxes[k].x + boxes[k].w + 64.0 { RowUpTo(boxes, k + 1); }
  }

  lemma {:induction false} RowUpTo(boxes: seq<Box>, k: nat)
    requires k < |boxes| && InRows(GAP, boxes, 0.0, 0.0, |boxes| + 1)
    ensures boxes[k].y == 0.0 && boxes[k].x == if k == 0 then 0.0 else boxes[k - 1].x + boxes[k - 1].w + 64.0
  {
    if k > 0 {
      RowUpTo(boxes, k - 1);
      DividesBy(k, |boxes| + 1, 0, k);
      assert NextFollows(GAP, boxes, k - 1, 0.0, |boxes| + 1);
    }
  }

  /** The layout ends on every diagram. It fails exactly when an id is taken twice or an element does not hang on a
  root, and otherwise gives each element one box, nested and kept apart as the elements are. */
  method LayoutC4(els: seq<Element>) returns (r: Result)
    requires forall e :: e in els ==> e.width >= 0.0
    ensures r.Duplicate? <==> !Unique(els)
    ensures r.Laid? <==> Unique(els) && forall i :: 0 <= i < |els| ==> Rooted(els, i)
    ensures r.Laid? ==> Sound(M, r.placed) && Once(r.placed) && AllPaths(els, r.placed) && LeavesFit(els, r.placed)
    ensures r.Laid? ==> AllArranged(els, r.placed) && RootsInRow(els, r.placed)
  {
    var twin := CheckUnique(els);
    if twin.Some? { return Duplicate(twin.value); }
    hide Unique, Sound, Once, Rooted, Kids, LeavesFit, PlacedKids, AllArranged, KidsAt, InRows, Beside;
    var roots := KidsOf(els, []);
    var placed, right, bottom;
    ghost var boxes;
    placed, right, bottom, boxes := PlaceKids(els, [], roots, 0.0, 0.0, |roots| + 1);
    SameCount(placed, [], roots, boxes);
    InOneRow(boxes);
    PlacedPaths(els, placed, 0.0, 0.0, right, bottom);
    var missing := FindUnplaced(els, placed);
    if missing.Some? { return Unplaced(missing.value); }
    return Laid(placed);
  }

  /** Each element gets exactly one box: its path is the only one that ends in it. */
  lemma OneBoxEach(els: seq<Element>, placed: seq<Placed>, p: Placed, q: Placed)
    requires Unique(els) && Sound(M, placed) && AllPaths(els, placed)
    requires p in placed && q in placed && p.path != [] && q.path != [] && Last(p.path) == Last(q.path)
    ensures p == q
  {
    assert HasPath(placed, p.path) && HasPath(placed, q.path);
    PathIsUnique(els, p.path, q.path);
    assert Related(M, p, q);
  }
}
