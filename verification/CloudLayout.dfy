/** Laying out a cloud diagram with some groups collapsed: its nested boxes, the nodes drawn and the links
re-attached. */
module CloudLayout {
  import opened Wrappers
  import opened ParentForest
  import opened Ancestors
  import opened Nesting
  import opened Reach
  import opened CloudCollapse
  import opened Arrangement

  const PADDING := 16.0
  const HEADER := 26.0
  const GAP := 84.0
  const ROW_GAP := 160.0
  const LEAF_HEIGHT := 56.0
  const MAX_ROW_WIDTH := 1200.0
  const MAX_NEST_DEPTH := 64

  const M := Margins(GAP, PADDING, HEADER)

  // ---- The cap on the depth ----

  ghost predicate TooDeep(els: seq<Element>, collapsed: set<Id>, path: Path) {
    exists q :: Reached(els, collapsed, q) && IsPrefix(path, q) && |q| > MAX_NEST_DEPTH + 1
  }

  ghost predicate SomeTooDeep(els: seq<Element>, collapsed: set<Id>, path: Path, kids: seq<nat>, n: nat)
    requires n <= |kids|
  {
    exists m :: 0 <= m < n && TooDeep(els, collapsed, path + [kids[m]])
  }

  lemma DeepBelow(els: seq<Element>, collapsed: set<Id>, path: Path, kids: seq<nat>)
    requires (path == [] || Last(path) < |els|) && kids == KidsOf(els, path) && |path| <= MAX_NEST_DEPTH + 1
    ensures TooDeep(els, collapsed, path) <==> SomeTooDeep(els, collapsed, path, kids, |kids|)
  {
    if TooDeep(els, collapsed, path) {
      var q :| Reached(els, collapsed, q) && IsPrefix(path, q) && |q| > MAX_NEST_DEPTH + 1;
      GoesOn(els, collapsed, path, q);
      var m :| 0 <= m < |kids| && IsPrefix(path + [kids[m]], q);
      assert TooDeep(els, collapsed, path + [kids[m]]);
    }
    if SomeTooDeep(els, collapsed, path, kids, |kids|) {
      var m :| 0 <= m < |kids| && TooDeep(els, collapsed, path + [kids[m]]);
      var q :| Reached(els, collapsed, q) && IsPrefix(path + [kids[m]], q) && |q| > MAX_NEST_DEPTH + 1;
      ShorterPrefix(path, kids[m], q);
    }
  }

  lemma OneMoreDeep(els: seq<Element>, collapsed: set<Id>, path: Path, kids: seq<nat>, n: nat)
    requires n < |kids|
    ensures SomeTooDeep(els, collapsed, path, kids, n + 1) <==>
            SomeTooDeep(els, collapsed, path, kids, n) || TooDeep(els, collapsed, path + [kids[n]])
  {
    hide TooDeep;
  }

  // ---- What is placed ----

  /** An element that shows no children has a box as wide as its label. */
  ghost predicate LeafFits(els: seq<Element>, collapsed: set<Id>, p: Placed) {
    p.path != [] && Last(p.path) < |els| &&
    (KidsOf(els, p.path) == [] || els[Last(p.path)].id in collapsed ==>
       p.box.w == els[Last(p.path)].width && p.box.h == LEAF_HEIGHT)
  }

  ghost predicate LeavesFit(els: seq<Element>, collapsed: set<Id>, placed: seq<Placed>) {
    forall p :: p in placed ==> LeafFits(els, collapsed, p)
  }

  /** Boxes that nest and keep apart as their paths do, in the order of placement, leaves as wide as their labels. */
  ghost predicate Fine(els: seq<Element>, collapsed: set<Id>, placed: seq<Placed>) {
    var fine := Sound(M, placed) && Once(placed) && InOrder(placed) && LeavesFit(els, collapsed, placed);
    fine
  }

  /** An element that shows its children: a group that has some, is not collapsed and is not too deep. */
  ghost predicate Shows(els: seq<Element>, collapsed: set<Id>, path: Path)
    requires path != [] && Last(path) < |els|
  {
    KidsOf(els, path) != [] && els[Last(path)].id !in collapsed && |path| <= MAX_NEST_DEPTH + 1
  }

  /** The children shown stand in one row, and the group is drawn close around them. */
  ghost predicate Arranged(els: seq<Element>, collapsed: set<Id>, placed: seq<Placed>, p: Placed) {
    && p.path != [] && Last(p.path) < |els|
    && (if Shows(els, collapsed, p.path) then exists boxes :: KidsArranged(els, placed, p, boxes)
        else p.box.w == els[Last(p.path)].width && p.box.h == LEAF_HEIGHT)
  }

  ghost predicate KidsArranged(els: seq<Element>, placed: seq<Placed>, p: Placed, boxes: seq<Box>)
    requires p.path != [] && Last(p.path) < |els|
  {
    && KidsAt(placed, p.path, KidsOf(els, p.path), boxes)
    && RowWithin(84.0, boxes, p.box.x + 16.0, p.box.y + 26.0, p.box.x + p.box.w - 16.0, p.box.y + p.box.h - 16.0)
  }

  ghost predicate AllArranged(els: seq<Element>, collapsed: set<Id>, placed: seq<Placed>) {
    forall p :: p in placed ==> Arranged(els, collapsed, placed, p)
  }

  lemma ArrangedStill(els: seq<Element>, collapsed: set<Id>, placed: seq<Placed>, more: seq<Placed>, p: Placed)
    requires Arranged(els, collapsed, placed, p) || Arranged(els, collapsed, more, p)
    ensures Arranged(els, collapsed, placed + more, p)
  {
    hide KidsAt, RowWithin;
    if Shows(els, collapsed, p.path) {
      var was := if Arranged(els, collapsed, placed, p) then placed else more;
      var boxes :| KidsArranged(els, was, p, boxes);
      KidsStillAt(placed, more, p.path, KidsOf(els, p.path), boxes);
      assert KidsArranged(els, placed + more, p, boxes);
    }
  }

  lemma BothArranged(els: seq<Element>, collapsed: set<Id>, placed: seq<Placed>, more: seq<Placed>)
    requires AllArranged(els, collapsed, placed) && AllArranged(els, collapsed, more)
    ensures AllArranged(els, collapsed, placed + more)
  {
    hide Arranged;
    forall p | p in placed + more ensures Arranged(els, collapsed, placed + more, p) {
      ArrangedStill(els, collapsed, placed, more, p);
    }
  }

  lemma KidsOfPlaced(els: seq<Element>, collapsed: set<Id>, placed: seq<Placed>, p: Placed) returns (boxes: seq<Box>)
    requires AllArranged(els, collapsed, placed) && p in placed
    ensures p.path != [] && Last(p.path) < |els|
    ensures if Shows(els, collapsed, p.path) then KidsArranged(els, placed, p, boxes)
            else p.box.w == els[Last(p.path)].width && p.box.h == LEAF_HEIGHT
  {
    hide KidsAt, RowWithin, KidsOf;
    assert Arranged(els, collapsed, placed, p);
    boxes := [];
    if Shows(els, collapsed, p.path) { boxes :| KidsArranged(els, placed, p, boxes); }
  }

  /** An element is as large wherever it is placed. */
  lemma {:induction false} SameSize(els: seq<Element>, collapsed: set<Id>, a: seq<Placed>, b: seq<Placed>, p: Placed,
                                    q: Placed)
    requires AllArranged(els, collapsed, a) && AllArranged(els, collapsed, b) && p in a && q in b && p.path == q.path
    ensures p.box.w == q.box.w && p.box.h == q.box.h
    decreases MAX_NEST_DEPTH + 2 - |p.path|
  {
    hide AllArranged, RowWithin, KidsOf, Arranged;
    var pBoxes := KidsOfPlaced(els, collapsed, a, p);
    var qBoxes := KidsOfPlaced(els, collapsed, b, q);
    if Shows(els, collapsed, p.path) {
      var kids := KidsOf(els, p.path);
      forall k | 0 <= k < |kids| ensures pBoxes[k].w == qBoxes[k].w && pBoxes[k].h == qBoxes[k].h {
        SameSize(els, collapsed, a, b, Placed(p.path + [kids[k]], pBoxes[k]), Placed(p.path + [kids[k]], qBoxes[k]));
      }
      SameRow(84.0, pBoxes, p.box.x + 16.0, p.box.y + 26.0, p.box.x + p.box.w - 16.0, p.box.y + p.box.h - 16.0,
              qBoxes, q.box.x + 16.0, q.box.y + 26.0, q.box.x + q.box.w - 16.0, q.box.y + q.box.h - 16.0);
    }
  }

  /** One element's boxes, at `box`. */
  ghost predicate PlacedAt(els: seq<Element>, collapsed: set<Id>, path: Path, box: Box, placed: seq<Placed>,
                           overflow: bool)
  {
    && Fine(els, collapsed, placed)
    && (forall q :: q in placed ==> IsPrefix(path, q.path) && (q.box == box || InsideBoundary(M, q.box, box)))
    && (overflow <==> TooDeep(els, collapsed, path))
    && (!overflow ==> Complete(els, collapsed, placed, path))
    && box.h > 0.0 && AllArranged(els, collapsed, placed) && Placed(path, box) in placed
  }

  lemma AtTheEnd(els: seq<Element>, collapsed: set<Id>, p: Placed, depth: nat)
    requires Reached(els, collapsed, p.path) && depth == |p.path| - 1
    requires KidsOf(els, p.path) == [] || els[Last(p.path)].id in collapsed || depth > MAX_NEST_DEPTH
    ensures TooDeep(els, collapsed, p.path) <==> depth > MAX_NEST_DEPTH
    ensures depth <= MAX_NEST_DEPTH ==> Complete(els, collapsed, [p], p.path)
  {
    assert IsPrefix(p.path, p.path);
    if depth <= MAX_NEST_DEPTH {
      LeafComplete(els, collapsed, p);
      assert forall q :: Reached(els, collapsed, q) && IsPrefix(p.path, q) ==> HasPath([p], q);
    }
  }

  lemma LeafPlaced(els: seq<Element>, collapsed: set<Id>, path: Path, box: Box, depth: nat)
    requires Reached(els, collapsed, path) && depth == |path| - 1
    requires KidsOf(els, path) == [] || els[Last(path)].id in collapsed || depth > MAX_NEST_DEPTH
    requires box.w == els[Last(path)].width && box.h == LEAF_HEIGHT
    ensures PlacedAt(els, collapsed, path, box, [Placed(path, box)], depth > MAX_NEST_DEPTH)
  {
    assert Last(path) < |els|;
    hide Reached, TooDeep, Sound, Complete, KidsOf;
    OneIsSound(M, Placed(path, box));
    AtTheEnd(els, collapsed, Placed(path, box), depth);
    assert IsPrefix(path, path);
    assert Arranged(els, collapsed, [Placed(path, box)], Placed(path, box));
  }

  // ---- A row ----

  /** The children placed so far. */
  ghost predicate InRow(els: seq<Element>, collapsed: set<Id>, path: Path, kids: seq<nat>, n: nat, boxes: seq<Box>,
                        placed: seq<Placed>, overflow: bool)
    requires n == |boxes| <= |kids|
  {
    var soFar := Fine(els, collapsed, placed) && OfKids(M, placed, path, kids, boxes) &&
                 (overflow <==> SomeTooDeep(els, collapsed, path, kids, n)) &&
                 (!overflow ==> CompleteKids(els, collapsed, placed, path, kids, n)) &&
                 AllArranged(els, collapsed, placed) && KidsAt(placed, path, kids[..n], boxes);
    soFar
  }

  lemma NextKid(els: seq<Element>, collapsed: set<Id>, path: Path, kids: seq<nat>, n: nat, boxes: seq<Box>,
                placed: seq<Placed>, overflow: bool, box: Box, more: seq<Placed>, over: bool)
    requires Ascending(kids) && n == |boxes| < |kids|
    requires InRow(els, collapsed, path, kids, n, boxes, placed, overflow)
    requires PlacedAt(els, collapsed, path + [kids[n]], box, more, over)
    requires forall k :: 0 <= k < |boxes| ==> Apart(M, boxes[k], box)
    ensures InRow(els, collapsed, path, kids, n + 1, boxes + [box], placed + more, overflow || over)
  {
    hide Complete, CompleteKids, SomeTooDeep, TooDeep, Sound, Once, InOrder, OfKids, Apart, LeafFits, IsPrefix;
    hide InsideBoundary, AllArranged, KidsAt;
    BothArranged(els, collapsed, placed, more);
    OneMoreAt(placed, more, path, kids, boxes, box);
    OneMoreDeep(els, collapsed, path, kids, n);
    AddKidSound(M, path, kids, boxes, box, placed, more);
    AddKidInOrder(M, path, kids, boxes, box, placed, more);
    AddKidOf(M, path, kids, boxes, box, placed, more);
    if !overflow && !over { AddKidComplete(els, collapsed, placed, more, path, kids, n); }
  }

  /** Where the next child goes, and how far the children reach. */
  datatype Cursor = Cursor(left: real, top: real, x: real, y: real, height: real, right: real, bottom: real)

  /** The first `n` children are placed, and the next one goes to the cursor. */
  ghost predicate RowSoFar(els: seq<Element>, collapsed: set<Id>, path: Path, kids: seq<nat>, n: nat, boxes: seq<Box>,
                           placed: seq<Placed>, overflow: bool, at: Cursor)
  {
    var soFar := n == |boxes| <= |kids| && InRow(els, collapsed, path, kids, n, boxes, placed, overflow) &&
                 Rows(M, boxes, at.left, at.top, at.x, at.y, at.height, at.right, at.bottom);
    soFar
  }

  function Start(left: real, top: real): Cursor { Cursor(left, top, left, top, 0.0, left, top) }

  function Advanced(at: Cursor, box: Box): Cursor {
    at.(x := at.x + box.w + GAP, height := Max(at.height, box.h),
        right := Max(at.right, box.x + box.w), bottom := Max(at.bottom, box.y + box.h))
  }

  function Wrapped(at: Cursor): Cursor { at.(x := at.left, y := at.y + at.height + ROW_GAP, height := 0.0) }

  lemma NoKids(els: seq<Element>, collapsed: set<Id>, path: Path, kids: seq<nat>, left: real, top: real)
    ensures RowSoFar(els, collapsed, path, kids, 0, [], [], false, Start(left, top))
  {
  }

  lemma Advance(els: seq<Element>, collapsed: set<Id>, path: Path, kids: seq<nat>, n: nat, boxes: seq<Box>,
                placed: seq<Placed>, overflow: bool, at: Cursor, box: Box, more: seq<Placed>, over: bool, next: Cursor)
    requires Ascending(kids) && n < |kids| && box.x == at.x && box.y == at.y && box.w >= 0.0
    requires RowSoFar(els, collapsed, path, kids, n, boxes, placed, overflow, at)
    requires PlacedAt(els, collapsed, path + [kids[n]], box, more, over) && next == Advanced(at, box)
    ensures RowSoFar(els, collapsed, path, kids, n + 1, boxes + [box], placed + more, overflow || over, next)
  {
    hide InRow, PlacedAt, Rows, Apart, Ascending;
    NextInRow(M, boxes, box, at.left, at.top, at.x, at.y, at.height, at.right, at.bottom);
    NextKid(els, collapsed, path, kids, n, boxes, placed, overflow, box, more, over);
  }

  lemma Wrap(els: seq<Element>, collapsed: set<Id>, path: Path, kids: seq<nat>, n: nat, boxes: seq<Box>,
             placed: seq<Placed>, overflow: bool, at: Cursor)
    requires RowSoFar(els, collapsed, path, kids, n, boxes, placed, overflow, at)
    ensures RowSoFar(els, collapsed, path, kids, n, boxes, placed, overflow, Wrapped(at))
  {
    WrapKeepsRows(M, boxes, at.left, at.top, at.x, at.y, at.height, at.right, at.bottom, at.y + at.height + ROW_GAP);
  }

  // ---- A group ----

  /** The first `n` children of a group, side by side from (`left`, `top`) on. */
  ghost predicate SideBySide(els: seq<Element>, collapsed: set<Id>, path: Path, kids: seq<nat>, n: nat, boxes: seq<Box>,
                             placed: seq<Placed>, overflow: bool, left: real, top: real, cursor: real, maxHeight: real)
  {
    var right := if n == 0 then left else cursor - GAP;
    left <= right && maxHeight >= 0.0 && Beside(GAP, boxes, left, top) &&
    Filling(GAP, boxes, 0, left, cursor, top, maxHeight) &&
    RowSoFar(els, collapsed, path, kids, n, boxes, placed, overflow,
             Cursor(left, top, cursor, top, maxHeight, right, top + maxHeight))
  }

  lemma NoneBeside(els: seq<Element>, collapsed: set<Id>, path: Path, kids: seq<nat>, left: real, top: real)
    ensures SideBySide(els, collapsed, path, kids, 0, [], [], false, left, top, left, 0.0)
  {
    NoKids(els, collapsed, path, kids, left, top);
  }

  lemma OneMoreBeside(els: seq<Element>, collapsed: set<Id>, path: Path, kids: seq<nat>, n: nat, boxes: seq<Box>,
                      placed: seq<Placed>, overflow: bool, left: real, top: real, cursor: real, maxHeight: real,
                      box: Box, more: seq<Placed>, over: bool, next: real, tallest: real)
    requires next == cursor + box.w + GAP && tallest == Max(maxHeight, box.h)
    requires Ascending(kids) && n < |kids| && box.x == cursor && box.y == top && box.w >= 0.0 && box.h > 0.0
    requires SideBySide(els, collapsed, path, kids, n, boxes, placed, overflow, left, top, cursor, maxHeight)
    requires PlacedAt(els, collapsed, path + [kids[n]], box, more, over)
    ensures SideBySide(els, collapsed, path, kids, n + 1, boxes + [box], placed + more, overflow || over, left, top,
                       next, tallest)
  {
    hide RowSoFar, PlacedAt, Ascending, Beside, Filling;
    GoesBeside(boxes, box, left, top, cursor, maxHeight);
    var right := if n == 0 then left else cursor - GAP;
    var at := Cursor(left, top, cursor, top, maxHeight, right, top + maxHeight);
    RowStartsInside(els, collapsed, path, kids, n, boxes, placed, overflow, at);
    Advance(els, collapsed, path, kids, n, boxes, placed, overflow, at, box, more, over, Advanced(at, box));
    assert Max(right, box.x + box.w) == next - GAP;
    assert Max(top + maxHeight, box.y + box.h) == top + tallest;
  }

  lemma GoesBeside(boxes: seq<Box>, box: Box, left: real, top: real, cursor: real, maxHeight: real)
    requires Beside(GAP, boxes, left, top) && Filling(GAP, boxes, 0, left, cursor, top, maxHeight)
    requires box.x == cursor && box.y == top && box.h >= 0.0
    ensures Beside(GAP, boxes + [box], left, top)
    ensures Filling(GAP, boxes + [box], 0, left, cursor + box.w + GAP, top, Max(maxHeight, box.h))
  {
    FillOn(GAP, boxes, 0, left, cursor, top, maxHeight, box);
    AddBeside(GAP, boxes, box, left, top);
  }

  lemma RowStartsInside(els: seq<Element>, collapsed: set<Id>, path: Path, kids: seq<nat>, n: nat, boxes: seq<Box>,
                        placed: seq<Placed>, overflow: bool, at: Cursor)
    requires RowSoFar(els, collapsed, path, kids, n, boxes, placed, overflow, at)
    ensures at.left <= at.x
  {
  }

  /** What is placed for the children of a group. */
  ghost predicate RowPlaced(els: seq<Element>, collapsed: set<Id>, path: Path, left: real, top: real,
                            placed: seq<Placed>, right: real, bottom: real, overflow: bool)
  {
    && NestedIn(M, placed, path, left, top, right, bottom) && right >= left && bottom >= top
    && Fine(els, collapsed, placed)
    && (overflow <==> TooDeep(els, collapsed, path))
    && (!overflow ==> AllBelow(els, collapsed, placed, path))
    && AllArranged(els, collapsed, placed) && HasRow(els, placed, path, left, top, right, bottom)
  }

  ghost predicate HasRow(els: seq<Element>, placed: seq<Placed>, path: Path, left: real, top: real, right: real,
                         bottom: real)
  {
    (path == [] || Last(path) < |els|) &&
    exists boxes :: KidsAt(placed, path, KidsOf(els, path), boxes) && RowWithin(GAP, boxes, left, top, right, bottom)
  }

  /** The children of a group, side by side. */
  method PlaceKids(els: seq<Element>, collapsed: set<Id>, path: Path, left: real, top: real, depth: nat)
    returns (placed: seq<Placed>, right: real, bottom: real, overflow: bool)
    requires Opened(els, collapsed, path) && path != [] && KidsOf(els, path) != []
    requires depth == |path| <= MAX_NEST_DEPTH + 1 && forall e :: e in els ==> e.width >= 0.0
    ensures RowPlaced(els, collapsed, path, left, top, placed, right, bottom, overflow)
    ensures right >= left && bottom >= top
    decreases MAX_NEST_DEPTH + 2 - depth, 0
  {
    hide Reached, KidsOf, Kids, Opened, SideBySide, PlacedAt, RowPlaced, Ascending;
    placed, overflow := [], false;
    var cursor, maxHeight := left, 0.0;
    ghost var boxes: seq<Box> := [];
    OpenedEnds(els, collapsed, path);
    var kids := KidsOf(els, path);
    NoneBeside(els, collapsed, path, kids, left, top);
    for i := 0 to |kids|
      invariant SideBySide(els, collapsed, path, kids, i, boxes, placed, overflow, left, top, cursor, maxHeight)
    {
      KidReached(els, collapsed, path, kids[i]);
      var kidBox, more, over := Place(els, collapsed, path + [kids[i]], cursor, top, depth);
      var next, tallest := cursor + kidBox.w + GAP, Max(maxHeight, kidBox.h);
      OneMoreBeside(els, collapsed, path, kids, i, boxes, placed, overflow, left, top, cursor, maxHeight, kidBox, more,
                    over,
                    next, tallest);
      placed, overflow, boxes, cursor, maxHeight := placed + more, overflow || over, boxes + [kidBox], next, tallest;
    }
    right, bottom := cursor - GAP, top + maxHeight;
    RowIsNested(els, collapsed, path, kids, boxes, placed, overflow, left, top, cursor, maxHeight);
  }

  lemma OpenedEnds(els: seq<Element>, collapsed: set<Id>, path: Path)
    requires Opened(els, collapsed, path)
    ensures path == [] || Last(path) < |els|
  {
  }

  lemma RowIsNested(els: seq<Element>, collapsed: set<Id>, path: Path, kids: seq<nat>, boxes: seq<Box>,
                    placed: seq<Placed>, overflow: bool, left: real, top: real, cursor: real, maxHeight: real)
    requires Opened(els, collapsed, path) && kids == KidsOf(els, path) && kids != [] && |path| <= MAX_NEST_DEPTH + 1
    requires SideBySide(els, collapsed, path, kids, |kids|, boxes, placed, overflow, left, top, cursor, maxHeight)
    ensures RowPlaced(els, collapsed, path, left, top, placed, cursor - GAP, top + maxHeight, overflow)
    ensures cursor - GAP >= left && maxHeight >= 0.0
  {
    hide TooDeep, SomeTooDeep, CompleteKids, AllBelow, Sound, Once, InOrder, OfKids, KidsOf, LeafFits, AllArranged;
    hide Beside, Filling, RowWithin, KidsAt, Reached, Opened;
    OpenedEnds(els, collapsed, path);
    assert kids[..|kids|] == kids;
    RowFilled(GAP, boxes, left, top, cursor, maxHeight);
    KidsNested(M, path, kids, placed, boxes, left, top, cursor - GAP, top + maxHeight);
    DeepBelow(els, collapsed, path, kids);
    if !overflow { KidsAreAll(els, collapsed, placed, path, kids); }
  }

  lemma GroupArranged(els: seq<Element>, collapsed: set<Id>, path: Path, inner: seq<Placed>, box: Box, right: real,
                      bottom: real)
    requires Opened(els, collapsed, path) && path != [] && KidsOf(els, path) != [] && |path| <= MAX_NEST_DEPTH + 1
    requires HasRow(els, inner, path, box.x + PADDING, box.y + HEADER, right, bottom)
    requires AllArranged(els, collapsed, inner)
    requires box.w == right - box.x + PADDING && box.h == bottom - box.y + PADDING
    ensures AllArranged(els, collapsed, inner + [Placed(path, box)])
  {
    hide KidsAt, RowWithin, KidsOf;
    var own := Placed(path, box);
    var boxes :| KidsAt(inner, path, KidsOf(els, path), boxes) &&
      RowWithin(GAP, boxes, box.x + PADDING, box.y + HEADER, right, bottom);
    KidsStillAt(inner, [own], path, KidsOf(els, path), boxes);
    assert KidsArranged(els, inner + [own], own, boxes);
    forall p | p in inner ensures Arranged(els, collapsed, inner + [own], p) {
      ArrangedStill(els, collapsed, inner, [own], p);
    }
  }

  lemma AroundRow(els: seq<Element>, collapsed: set<Id>, path: Path, inner: seq<Placed>, box: Box, right: real,
                  bottom: real, overflow: bool)
    requires Opened(els, collapsed, path) && path != [] && KidsOf(els, path) != []
    requires RowPlaced(els, collapsed, path, box.x + PADDING, box.y + HEADER, inner, right, bottom, overflow)
    requires box.w == right - box.x + PADDING && box.h == bottom - box.y + PADDING
    requires |path| <= MAX_NEST_DEPTH + 1
    ensures PlacedAt(els, collapsed, path, box, inner + [Placed(path, box)], overflow)
  {
    hide TooDeep, Sound, Once, InOrder, Complete, AllBelow, KidsAt, RowWithin, Arranged, HasRow;
    GroupArranged(els, collapsed, path, inner, box, right, bottom);
    AroundSound(M, path, inner, box, right, bottom);
    AroundInOrder(inner, Placed(path, box));
    assert IsPrefix(path, path);
    if !overflow { AroundComplete(els, collapsed, inner, Placed(path, box)); }
  }

  lemma ReachedEnds(els: seq<Element>, collapsed: set<Id>, path: Path)
    requires Reached(els, collapsed, path)
    ensures path != [] && Last(path) < |els| && els[Last(path)] in els
    ensures els[Last(path)].id !in collapsed ==> Opened(els, collapsed, path)
  {
  }

  /** One element. A collapsed group is placed without what is in it. */
  method Place(els: seq<Element>, collapsed: set<Id>, path: Path, x: real, y: real, depth: nat)
    returns (box: Box, placed: seq<Placed>, overflow: bool)
    requires Reached(els, collapsed, path)
    requires depth == |path| - 1 <= MAX_NEST_DEPTH + 1 && forall e :: e in els ==> e.width >= 0.0
    ensures box.x == x && box.y == y && box.w >= 0.0 && box.h > 0.0
    ensures PlacedAt(els, collapsed, path, box, placed, overflow)
    decreases MAX_NEST_DEPTH + 1 - depth, 1
  {
    hide PlacedAt, TooDeep, NestedIn, Fine, AllBelow, Reached, Opened, KidsOf, RowPlaced, AllArranged, HasRow;
    ReachedEnds(els, collapsed, path);
    var kids := KidsOf(els, path);
    if |kids| == 0 || els[Last(path)].id in collapsed || depth > MAX_NEST_DEPTH {
      box := Box(x, y, els[Last(path)].width, LEAF_HEIGHT);
      placed, overflow := [Placed(path, box)], depth > MAX_NEST_DEPTH;
      LeafPlaced(els, collapsed, path, box, depth);
      return;
    }
    var inner, right, bottom;
    inner, right, bottom, overflow := PlaceKids(els, collapsed, path, x + PADDING, y + HEADER, depth + 1);
    box := Box(x, y, right - x + PADDING, bottom - y + PADDING);
    placed := inner + [Placed(path, box)];
    AroundRow(els, collapsed, path, inner, box, right, bottom, overflow);
  }

  // ---- The top level ----

  /** Exactly what is reached from the roots is placed. */
  ghost predicate AllReached(els: seq<Element>, collapsed: set<Id>, placed: seq<Placed>) {
    forall q :: HasPath(placed, q) <==> Reached(els, collapsed, q)
  }

  /** The top-level elements stand in rows that end within the width, unless a single element is wider. */
  ghost predicate RootsInRows(els: seq<Element>, placed: seq<Placed>) {
    exists boxes :: KidsAt(placed, [], KidsOf(els, []), boxes) && Wrapping(84.0, 160.0, 1200.0, boxes)
  }

  /** The top-level elements in rows. Each is placed at the end of the row and, if that makes the row too wide, once
  more at the start of the next one, which overwrites its boxes and those of all it holds. */
  method PlaceRoots(els: seq<Element>, collapsed: set<Id>) returns (placed: seq<Placed>, overflow: bool)
    requires forall e :: e in els ==> e.width >= 0.0
    ensures Fine(els, collapsed, placed) && (overflow <==> TooDeep(els, collapsed, []))
    ensures !overflow ==> AllReached(els, collapsed, placed)
    ensures AllArranged(els, collapsed, placed) && RootsInRows(els, placed)
  {
    hide Reached, RowSoFar, PlacedAt, TooDeep, KidsOf, Fine, AllReached, Ascending, AllArranged, KidsAt, Wrapping,
        AtRowEnd, RootsInRows;
    var roots := KidsOf(els, []);
    placed, overflow := [], false;
    var cx, cy, rowHeight := 0.0, 0.0, 0.0;
    ghost var boxes: seq<Box>, at := [], Start(0.0, 0.0);
    NoKids(els, collapsed, [], roots, 0.0, 0.0);
    NoRows(els);
    for i := 0 to |roots|
      invariant RowSoFar(els, collapsed, [], roots, i, boxes, placed, overflow, at)
      invariant at.left == 0.0 && at.x == cx && at.y == cy && at.height == rowHeight && rowHeight >= 0.0
      invariant |boxes| == i && cx >= 0.0 && (i > 0 ==> cx > 0.0)
      invariant Wrapping(GAP, ROW_GAP, MAX_ROW_WIDTH, boxes) && AtRowEnd(GAP, boxes, cx, cy, rowHeight)
    {
      RootReached(els, collapsed, roots, i);
      ghost var x, y, height := cx, cy, rowHeight;
      var b, more, over := Place(els, collapsed, [] + [roots[i]], cx, cy, 0);
      if cx > 0.0 && cx + b.w > MAX_ROW_WIDTH {
        ghost var first, before, deep := b, more, over;
        Wrap(els, collapsed, [], roots, i, boxes, placed, overflow, at);
        at := Wrapped(at);
        cy := cy + rowHeight + ROW_GAP;
        cx, rowHeight := 0.0, 0.0;
        b, more, over := Place(els, collapsed, [] + [roots[i]], cx, cy, 0);
        SameSizeAgain(els, collapsed, [] + [roots[i]], first, before, deep, b, more, over);
      }
      RootStands(boxes, x, y, height, b);
      ghost var next := Advanced(at, b);
      Advance(els, collapsed, [], roots, i, boxes, placed, overflow, at, b, more, over, next);
      placed, overflow, boxes, at := placed + more, overflow || over, boxes + [b], next;
      cx, rowHeight := cx + b.w + GAP, Max(rowHeight, b.h);
    }
    RootsPlaced(els, collapsed, roots, boxes, placed, overflow, at);
  }

  lemma NoRows(els: seq<Element>)
    ensures Wrapping(GAP, ROW_GAP, MAX_ROW_WIDTH, []) && AtRowEnd(GAP, [], 0.0, 0.0, 0.0) && Ascending(KidsOf(els, []))
  {
  }

  lemma RootReached(els: seq<Element>, collapsed: set<Id>, roots: seq<nat>, i: nat)
    requires roots == KidsOf(els, []) && i < |roots|
    ensures Reached(els, collapsed, [] + [roots[i]])
  {
    KidReached(els, collapsed, [], roots[i]);
  }

  lemma SameSizeAgain(els: seq<Element>, collapsed: set<Id>, path: Path, a: Box, first: seq<Placed>, aDeep: bool,
                      b: Box,
                      second: seq<Placed>, bDeep: bool)
    requires PlacedAt(els, collapsed, path, a, first, aDeep) && PlacedAt(els, collapsed, path, b, second, bDeep)
    ensures a.w == b.w
  {
    hide AllArranged, Fine, TooDeep, Complete;
    SameSize(els, collapsed, first, second, Placed(path, a), Placed(path, b));
  }

  /** The next top-level box stands at the end of the row, or where it would reach too far, in the next row. */
  lemma RootStands(boxes: seq<Box>, x: real, y: real, height: real, b: Box)
    requires Wrapping(GAP, ROW_GAP, MAX_ROW_WIDTH, boxes) && AtRowEnd(GAP, boxes, x, y, height)
    requires height >= 0.0 && b.w >= 0.0 && b.h > 0.0 && (boxes != [] ==> x > 0.0)
    requires if x > 0.0 && x + b.w > MAX_ROW_WIDTH then b.x == 0.0 && b.y == y + height + ROW_GAP
             else b.x == x && b.y == y
    ensures Wrapping(GAP, ROW_GAP, MAX_ROW_WIDTH, boxes + [b])
    ensures AtRowEnd(GAP, boxes + [b], b.x + b.w + GAP, b.y,
                     if x > 0.0 && x + b.w > MAX_ROW_WIDTH then b.h else Max(height, b.h))
  {
    hide Wrapping;
    if boxes != [] && x + b.w > MAX_ROW_WIDTH {
      GoToNextRow(GAP, ROW_GAP, MAX_ROW_WIDTH, boxes, x, y, height, b);
    } else {
      GoOnInRow(GAP, ROW_GAP, MAX_ROW_WIDTH, boxes, x, y, height, b);
    }
  }

  lemma RootsPlaced(els: seq<Element>, collapsed: set<Id>, roots: seq<nat>, boxes: seq<Box>, placed: seq<Placed>,
                    overflow: bool, at: Cursor)
    requires roots == KidsOf(els, []) && RowSoFar(els, collapsed, [], roots, |roots|, boxes, placed, overflow, at)
    requires Wrapping(GAP, ROW_GAP, MAX_ROW_WIDTH, boxes)
    ensures Fine(els, collapsed, placed) && (overflow <==> TooDeep(els, collapsed, []))
    ensures !overflow ==> AllReached(els, collapsed, placed)
    ensures AllArranged(els, collapsed, placed) && RootsInRows(els, placed)
  {
    hide TooDeep, SomeTooDeep, CompleteKids, Fine, OfKids, KidsOf, AllArranged, KidsAt, Wrapping;
    assert roots[..|roots|] == roots;
    DeepBelow(els, collapsed, [], roots);
    if !overflow {
      KidsAreAll(els, collapsed, placed, [], roots);
      forall q: Path ensures HasPath(placed, q) <==> Reached(els, collapsed, q) { assert IsPrefix([], q); }
    }
  }

  // ---- Boxes by id ----

  ghost predicate EndsIn(els: seq<Element>, p: Placed, id: Id) {
    p.path != [] && Last(p.path) < |els| && els[Last(p.path)].id == id
  }

  /** The box placed last for any declaration of `id`. */
  ghost function LastBox(els: seq<Element>, placed: seq<Placed>, id: Id): Option<Box> {
    if placed == [] then None
    else if EndsIn(els, placed[|placed| - 1], id) then Some(placed[|placed| - 1].box)
    else LastBox(els, placed[..|placed| - 1], id)
  }

  ghost predicate BoxesMatch(els: seq<Element>, placed: seq<Placed>, boxes: map<Id, Box>) {
    forall id {:trigger LastBox(els, placed, id)} :: LastBox(els, placed, id) ==
        if id in boxes then Some(boxes[id]) else None
  }

  /** The boxes by id: a later one overwrites an earlier one. */
  method BoxesOf(els: seq<Element>, placed: seq<Placed>) returns (boxes: map<Id, Box>)
    requires forall p :: p in placed ==> p.path != [] && Last(p.path) < |els|
    ensures BoxesMatch(els, placed, boxes)
  {
    boxes := map[];
    for i := 0 to |placed|
      invariant BoxesMatch(els, placed[..i], boxes)
    {
      var p := placed[i];
      assert p in placed;
      LastBoxStep(els, placed, i);
      boxes := boxes[els[Last(p.path)].id := p.box];
    }
    assert placed[..|placed|] == placed;
  }

  lemma LastBoxStep(els: seq<Element>, placed: seq<Placed>, i: nat)
    requires i < |placed|
    ensures forall id {:trigger LastBox(els, placed[..i + 1], id)} :: LastBox(els, placed[..i + 1], id) ==
              if EndsIn(els, placed[i], id) then Some(placed[i].box) else LastBox(els, placed[..i], id)
  {
    assert placed[..i + 1][..i] == placed[..i] && placed[..i + 1][i] == placed[i];
  }

  /** There is a box for `id` exactly when one of its declarations is reached. */
  lemma {:induction false} SomeLastBox(els: seq<Element>, placed: seq<Placed>, id: Id)
    ensures LastBox(els, placed, id).Some? <==> exists p :: p in placed && EndsIn(els, p, id)
  {
    if placed != [] {
      var init := placed[..|placed| - 1];
      SomeLastBox(els, init, id);
      assert placed == init + [placed[|placed| - 1]];
      if p :| p in placed && EndsIn(els, p, id) && !EndsIn(els, placed[|placed| - 1], id) { assert p in init; }
    }
  }

  lemma BoxedIsReached(els: seq<Element>, collapsed: set<Id>, placed: seq<Placed>, id: Id)
    requires AllReached(els, collapsed, placed)
    ensures LastBox(els, placed, id).Some? <==> HasBox(els, collapsed, id)
  {
    SomeLastBox(els, placed, id);
    if p :| p in placed && EndsIn(els, p, id) { assert HasPath(placed, p.path); }
    if HasBox(els, collapsed, id) {
      var q :| Reached(els, collapsed, q) && els[Last(q)].id == id;
      assert HasPath(placed, q);
    }
  }

  /** It is the box of the placement of `id` that no other comes after. */
  lemma {:induction false} LastBoxIs(els: seq<Element>, placed: seq<Placed>, id: Id, k: nat)
    requires k < |placed| && EndsIn(els, placed[k], id)
    requires forall m :: k < m < |placed| ==> !EndsIn(els, placed[m], id)
    ensures LastBox(els, placed, id) == Some(placed[k].box)
  {
    if k < |placed| - 1 { LastBoxIs(els, placed[..|placed| - 1], id, k); }
  }

  // ---- What is drawn ----

  datatype Link = Link(source: Id, target: Id)

  /** A declaration drawn, and its box. */
  datatype Node = Node(decl: nat, box: Box)

  datatype Scene = Scene(nodes: seq<Node>, links: seq<Link>)

  datatype Outcome = Drawn(scene: Scene) | TooDeeplyNested | Unplaced(id: Id) | UnknownEnd(link: Link)

  ghost predicate Unhidden(els: seq<Element>, collapsed: set<Id>, id: Id)
    requires AllWalksEnd(ParentMap(els))
  {
    Anchor(els, collapsed, id) == id
  }

  ghost predicate IsDrawn(nodes: seq<Node>, i: nat) { exists n :: n in nodes && n.decl == i }

  /** Of the first `k` declarations exactly the unhidden ones are drawn, once each and in order, in the box placed last
  for their id. */
  ghost predicate NodesDrawn(els: seq<Element>, collapsed: set<Id>, placed: seq<Placed>, nodes: seq<Node>, k: nat)
    requires AllWalksEnd(ParentMap(els)) && k <= |els|
  {
    && (forall i :: 0 <= i < k ==> (IsDrawn(nodes, i) <==> Unhidden(els, collapsed, els[i].id)))
    && (forall n :: n in nodes ==> n.decl < k && LastBox(els, placed, els[n.decl].id) == Some(n.box))
    && (forall a, b :: 0 <= a < b < |nodes| ==> nodes[a].decl < nodes[b].decl)
  }

  /** A link is dropped when its different ends fall into the same collapsed group. */
  ghost predicate Dropped(els: seq<Element>, collapsed: set<Id>, l: Link)
    requires AllWalksEnd(ParentMap(els))
  {
    l.source != l.target && Anchor(els, collapsed, l.source) == Anchor(els, collapsed, l.target)
  }

  /** The anchored link of a link that is kept. */
  ghost function Anchored(els: seq<Element>, collapsed: set<Id>, l: Link): Link
    requires AllWalksEnd(ParentMap(els))
  {
    Link(Anchor(els, collapsed, l.source), Anchor(els, collapsed, l.target))
  }

  /** `d` stands for a link that is kept. */
  ghost predicate FromLink(els: seq<Element>, collapsed: set<Id>, links: seq<Link>, d: Link)
    requires AllWalksEnd(ParentMap(els))
  {
    exists l :: l in links && !Dropped(els, collapsed, l) && d == Anchored(els, collapsed, l)
  }

  /** Each link that is kept, anchored, in order. */
  ghost function KeptLinks(els: seq<Element>, collapsed: set<Id>, links: seq<Link>): seq<Link>
    requires AllWalksEnd(ParentMap(els))
  {
    if links == [] then []
    else
      var last := links[|links| - 1];
      KeptLinks(els, collapsed, links[..|links| - 1]) +
      if Dropped(els, collapsed, last) then [] else [Anchored(els, collapsed, last)]
  }

  lemma OneMoreLink(els: seq<Element>, collapsed: set<Id>, links: seq<Link>, i: nat)
    requires AllWalksEnd(ParentMap(els)) && i < |links|
    ensures KeptLinks(els, collapsed, links[..i + 1]) ==
            KeptLinks(els, collapsed, links[..i]) +
            if Dropped(els, collapsed, links[i]) then [] else [Anchored(els, collapsed, links[i])]
  {
    assert links[..i + 1][..i] == links[..i];
  }

  /** The links drawn are the anchored ones of the links that are kept, once each and in order; their ends have
  boxes. */
  ghost predicate LinksDrawn(els: seq<Element>, collapsed: set<Id>, links: seq<Link>, drawn: seq<Link>)
    requires AllWalksEnd(ParentMap(els))
  {
    && drawn == KeptLinks(els, collapsed, links)
    && (forall d :: d in drawn ==> HasBox(els, collapsed, d.source) && HasBox(els, collapsed, d.target) &&
                                   FromLink(els, collapsed, links, d))
  }

  ghost predicate Boxed(els: seq<Element>, collapsed: set<Id>, boxes: map<Id, Box>) {
    forall id :: id in boxes <==> HasBox(els, collapsed, id)
  }

  /** Every unhidden element has a box. */
  ghost predicate AllShown(els: seq<Element>, collapsed: set<Id>)
    requires AllWalksEnd(ParentMap(els))
  {
    forall i :: 0 <= i < |els| && Unhidden(els, collapsed, els[i].id) ==> HasBox(els, collapsed, els[i].id)
  }

  ghost predicate EndsShown(els: seq<Element>, collapsed: set<Id>, l: Link)
    requires AllWalksEnd(ParentMap(els))
  {
    Dropped(els, collapsed, l) ||
    (HasBox(els, collapsed, Anchored(els, collapsed, l).source) &&
     HasBox(els, collapsed, Anchored(els, collapsed, l).target))
  }

  lemma NodesStep(els: seq<Element>, collapsed: set<Id>, placed: seq<Placed>, nodes: seq<Node>, k: nat, box: Box)
    requires AllWalksEnd(ParentMap(els)) && k < |els| && NodesDrawn(els, collapsed, placed, nodes, k)
    requires Unhidden(els, collapsed, els[k].id) ==> LastBox(els, placed, els[k].id) == Some(box)
    ensures NodesDrawn(els, collapsed, placed,
                       if Unhidden(els, collapsed, els[k].id) then nodes + [Node(k, box)] else nodes,
                       k + 1)
  {
    hide Unhidden, LastBox;
    var next := if Unhidden(els, collapsed, els[k].id) then nodes + [Node(k, box)] else nodes;
    assert forall i: nat :: IsDrawn(next, i) <==>
        IsDrawn(nodes, i) || (Unhidden(els, collapsed, els[k].id) && i == k) by {
      forall i: nat | IsDrawn(nodes, i) ensures IsDrawn(next, i) {
        var n :| n in nodes && n.decl == i;
        assert n in next;
      }
      assert Unhidden(els, collapsed, els[k].id) ==> Node(k, box) in next;
    }
    assert !IsDrawn(nodes, k);
  }

  /** Draws the unhidden elements. */
  method DrawElements(els: seq<Element>, collapsed: set<Id>, boxes: map<Id, Box>, ghost placed: seq<Placed>)
    returns (nodes: seq<Node>, missing: Option<Id>)
    requires AllWalksEnd(ParentMap(els)) && BoxesMatch(els, placed, boxes) && Boxed(els, collapsed, boxes)
    ensures missing.None? <==> AllShown(els, collapsed)
    ensures missing.None? ==> NodesDrawn(els, collapsed, placed, nodes, |els|)
  {
    nodes, missing := [], None;
    hide Anchor, HasBox, LastBox, NodesDrawn;
    NoNodes(els, collapsed, placed);
    for i := 0 to |els|
      invariant NodesDrawn(els, collapsed, placed, nodes, i)
      invariant forall k :: 0 <= k < i && Unhidden(els, collapsed, els[k].id) ==> HasBox(els, collapsed, els[k].id)
    {
      var id := els[i].id;
      var anchor := AnchorOf(els, collapsed, id);
      if anchor == id && id !in boxes { return nodes, Some(id); }
      assert id in boxes ==> LastBox(els, placed, id) == Some(boxes[id]);
      NodesStep(els, collapsed, placed, nodes, i, if id in boxes then boxes[id] else Box(0.0, 0.0, 0.0, 0.0));
      if anchor == id { nodes := nodes + [Node(i, boxes[id])]; }
    }
  }

  lemma NoNodes(els: seq<Element>, collapsed: set<Id>, placed: seq<Placed>)
    requires AllWalksEnd(ParentMap(els))
    ensures NodesDrawn(els, collapsed, placed, [], 0)
  {
  }

  lemma NoLinks(els: seq<Element>, collapsed: set<Id>)
    requires AllWalksEnd(ParentMap(els))
    ensures KeptLinks(els, collapsed, []) == []
  {
  }

  /** Re-attaches the links. */
  method DrawLinks(els: seq<Element>, collapsed: set<Id>, boxes: map<Id, Box>, links: seq<Link>)
    returns (drawn: seq<Link>, bad: Option<Link>)
    requires AllWalksEnd(ParentMap(els)) && Boxed(els, collapsed, boxes)
    ensures bad.None? ==> LinksDrawn(els, collapsed, links, drawn)
    ensures bad.None? <==> forall l :: l in links ==> EndsShown(els, collapsed, l)
  {
    drawn, bad := [], None;
    hide Anchor, HasBox, KeptLinks;
    NoLinks(els, collapsed);
    assert links[..|links|] == links;
    for i := 0 to |links|
      invariant drawn == KeptLinks(els, collapsed, links[..i])
      invariant forall d :: d in drawn ==> HasBox(els, collapsed, d.source) && HasBox(els, collapsed, d.target) &&
                                           FromLink(els, collapsed, links, d)
      invariant forall k :: 0 <= k < i ==> EndsShown(els, collapsed, links[k])
    {
      var l := links[i];
      OneMoreLink(els, collapsed, links, i);
      var source := AnchorOf(els, collapsed, l.source);
      var target := AnchorOf(els, collapsed, l.target);
      assert l in links && Link(source, target) == Anchored(els, collapsed, l);
      if !(l.source != l.target && source == target) {
        if source !in boxes || target !in boxes { return drawn, Some(l); }
        drawn := drawn + [Link(source, target)];
      }
    }
  }

  /** Nothing is in the way of drawing the diagram. */
  ghost predicate Drawable(els: seq<Element>, collapsed: set<Id>, links: seq<Link>)
    requires AllWalksEnd(ParentMap(els))
  {
    !TooDeep(els, collapsed, []) && AllShown(els, collapsed) && forall l :: l in links ==> EndsShown(els, collapsed, l)
  }

  /** When every id hangs on a root by its last declarations, nothing but too deep nesting can fail. */
  lemma HangingIsShown(els: seq<Element>, collapsed: set<Id>, links: seq<Link>)
    requires AllWalksEnd(ParentMap(els)) && forall i :: 0 <= i < |els| ==> Hangs(els, els[i].id)
    requires forall l :: l in links ==> Hangs(els, l.source) && Hangs(els, l.target)
    ensures AllShown(els, collapsed) && forall l :: l in links ==> EndsShown(els, collapsed, l)
  {
    hide Anchor, HasBox, Hangs, AgreesAlways, AllWaysPass;
    forall i | 0 <= i < |els| && Unhidden(els, collapsed, els[i].id) ensures HasBox(els, collapsed, els[i].id) {
      CollapseIsConsistent(els, collapsed, els[i].id);
    }
    forall l | l in links ensures EndsShown(els, collapsed, l) {
      CollapseIsConsistent(els, collapsed, l.source);
      CollapseIsConsistent(els, collapsed, l.target);
    }
  }

  /** Lays out the diagram with some groups collapsed. `placed` are the boxes as they are placed, of which those placed
  again in the next row replace the first ones. */
  method LayoutCloud(els: seq<Element>, collapsed: set<Id>, links: seq<Link>)
    returns (r: Outcome, ghost placed: seq<Placed>)
    requires AllWalksEnd(ParentMap(els)) && forall e :: e in els ==> e.width >= 0.0
    ensures r.TooDeeplyNested? <==> TooDeep(els, collapsed, [])
    ensures r.Drawn? <==> Drawable(els, collapsed, links)
    ensures r.Drawn? ==> Fine(els, collapsed, placed) && AllReached(els, collapsed, placed)
    ensures r.Drawn? ==> AllArranged(els, collapsed, placed) && RootsInRows(els, placed)
    ensures r.Drawn? ==> NodesDrawn(els, collapsed, placed, r.scene.nodes, |els|)
    ensures r.Drawn? ==> LinksDrawn(els, collapsed, links, r.scene.links)
  {
    hide Anchor, HasBox, TooDeep, AllReached, BoxesMatch, LinksDrawn, NodesDrawn, AllShown, EndsShown, Sound, Once,
        InOrder, AllArranged, RootsInRows;
    var boxed, overflow := PlaceRoots(els, collapsed);
    placed := boxed;
    if overflow { return TooDeeplyNested, placed; }
    var boxes := BoxesOf(els, boxed);
    BoxesAreBoxed(els, collapsed, placed, boxes);
    var nodes, missing := DrawElements(els, collapsed, boxes, placed);
    if missing.Some? { return Unplaced(missing.value), placed; }
    var kept, bad := DrawLinks(els, collapsed, boxes, links);
    if bad.Some? { return UnknownEnd(bad.value), placed; }
    r := Drawn(Scene(nodes, kept));
  }

  lemma BoxesAreBoxed(els: seq<Element>, collapsed: set<Id>, placed: seq<Placed>, boxes: map<Id, Box>)
    requires AllReached(els, collapsed, placed) && BoxesMatch(els, placed, boxes)
    ensures Boxed(els, collapsed, boxes)
  {
    hide HasBox, AllReached;
    forall id ensures id in boxes <==> HasBox(els, collapsed, id) {
      BoxedIsReached(els, collapsed, placed, id);
      assert LastBox(els, placed, id) == if id in boxes then Some(boxes[id]) else None;
    }
  }

  /** No link is drawn to a hidden element: its ends are their own anchors. */
  lemma LinksTouchNothingHidden(els: seq<Element>, collapsed: set<Id>, links: seq<Link>, drawn: seq<Link>, d: Link)
    requires AllWalksEnd(ParentMap(els)) && LinksDrawn(els, collapsed, links, drawn) && d in drawn
    ensures Unhidden(els, collapsed, d.source) && Unhidden(els, collapsed, d.target)
  {
    hide Anchor;
    var l :| l in links && !Dropped(els, collapsed, l) && d == Anchored(els, collapsed, l);
    AnchorIsOwnAnchor(els, collapsed, l.source);
    AnchorIsOwnAnchor(els, collapsed, l.target);
  }

  // ---- Unique ids ----

  /** With unique ids every drawn element has the box of its own path, so what is drawn nests and keeps apart as the
  elements do. */
  lemma UniqueIsWellDrawn(els: seq<Element>, collapsed: set<Id>, placed: seq<Placed>, nodes: seq<Node>, n: Node)
    requires Unique(els) && AllWalksEnd(ParentMap(els))
    requires AllReached(els, collapsed, placed) && NodesDrawn(els, collapsed, placed, nodes, |els|) && n in nodes
    ensures exists p :: p in placed && p.path != [] && Last(p.path) == n.decl && p.box == n.box
  {
    var id := els[n.decl].id;
    var p := LastPlaced(els, placed, id);
    assert HasPath(placed, p.path);
    SameIdSameElement(els, Last(p.path), n.decl);
  }

  lemma {:induction false} LastPlaced(els: seq<Element>, placed: seq<Placed>, id: Id) returns (p: Placed)
    requires LastBox(els, placed, id).Some?
    ensures p in placed && EndsIn(els, p, id) && LastBox(els, placed, id) == Some(p.box)
    decreases |placed|
  {
    p := placed[|placed| - 1];
    if !EndsIn(els, p, id) { p := LastPlaced(els, placed[..|placed| - 1], id); }
  }

  // ---- A leaf declared in two groups ----

  lemma TwinPaths(path: Path)
    requires IsPath(TWINS, path)
    ensures path == [0] || path == [1] || path == [0, 2] || path == [1, 3]
  {
    assert path[0] == 0 || path[0] == 1;
    if |path| > 1 { assert path[1] == path[0] + 2; }
    if |path| > 2 { TwinsHaveNoKids(path); }
  }

  lemma TwinsHaveNoKids(path: Path)
    requires IsPath(TWINS, path) && |path| > 1 && path[1] >= 2
    ensures |path| == 2
  {
    NoneUnderLeaf();
    ThirdHasParent(path);
    assert path[1] == 2 || path[1] == 3;
  }

  lemma ThirdHasParent(path: Path)
    requires IsPath(TWINS, path) && |path| > 1
    ensures path[1] < |TWINS| && (|path| > 2 ==> path[2] < |TWINS| && TWINS[path[2]].parent == Some(TWINS[path[1]].id))
  {
  }

  lemma NoneUnderLeaf()
    ensures TWINS[2].id == TWINS[3].id == "x"
    ensures forall i :: 0 <= i < |TWINS| ==> TWINS[i].parent != Some("x")
  {
  }

  lemma PlacedIndex(placed: seq<Placed>, path: Path) returns (k: nat)
    requires HasPath(placed, path)
    ensures k < |placed| && placed[k].path == path
  {
    var p :| p in placed && p.path == path;
    k :| 0 <= k < |placed| && placed[k] == p;
  }

  lemma SecondTwinIsLast(placed: seq<Placed>) returns (p: Placed)
    requires Fine(TWINS, {}, placed) && AllReached(TWINS, {}, placed)
    ensures p in placed && p.path == [1, 3] && LastBox(TWINS, placed, "x") == Some(p.box)
  {
    assert Reached(TWINS, {}, [1, 3]);
    var k := PlacedIndex(placed, [1, 3]);
    p := placed[k];
    forall m | k < m < |placed| ensures !EndsIn(TWINS, placed[m], "x") {
      assert HasPath(placed, placed[m].path);
      TwinPaths(placed[m].path);
      assert Before([1, 3], placed[m].path) && placed[m].path != [1, 3];
    }
    LastBoxIs(TWINS, placed, "x", k);
  }

  lemma FirstGroupBox(placed: seq<Placed>) returns (p: Placed)
    requires AllReached(TWINS, {}, placed)
    ensures p in placed && p.path == [0] && LastBox(TWINS, placed, "A") == Some(p.box)
  {
    assert Reached(TWINS, {}, [0]);
    assert HasBox(TWINS, {}, "A");
    BoxedIsReached(TWINS, {}, placed, "A");
    p := LastPlaced(TWINS, placed, "A");
    assert HasPath(placed, p.path);
    TwinPaths(p.path);
  }

  lemma NothingCollapsed(els: seq<Element>, id: Id)
    requires AllWalksEnd(ParentMap(els))
    ensures Unhidden(els, {}, id)
  {
    OwnAnchorExactly(els, {}, id);
  }

  /** Both of its declarations are drawn in the box it has in the second group, which is apart from the first group. */
  lemma TwinDrawnOutside(placed: seq<Placed>, nodes: seq<Node>)
    requires AllWalksEnd(ParentMap(TWINS)) && Fine(TWINS, {}, placed) && AllReached(TWINS, {}, placed)
    requires NodesDrawn(TWINS, {}, placed, nodes, |TWINS|)
    ensures exists group, leaf :: group in nodes && leaf in nodes && group.decl == 0 && leaf.decl == 2 &&
                                  TWINS[leaf.decl].parent == Some(TWINS[group.decl].id) && Apart(M, leaf.box, group.box)
  {
    var twin := SecondTwinIsLast(placed);
    var outer := FirstGroupBox(placed);
    assert Related(M, twin, outer);
    hide Fine, AllReached, Unhidden, LastBox, Apart;
    NothingCollapsed(TWINS, "A");
    NothingCollapsed(TWINS, "x");
    assert IsDrawn(nodes, 0) && IsDrawn(nodes, 2);
    var group :| group in nodes && group.decl == 0;
    var leaf :| leaf in nodes && leaf.decl == 2;
    assert leaf.box == twin.box && group.box == outer.box;
  }
}
