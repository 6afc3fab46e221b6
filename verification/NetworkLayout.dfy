/** Nested squarish grids for network diagrams. */
module NetworkLayout {
  import opened Wrappers
  import opened ParentForest
  import opened Nesting
  import opened Reach
  import opened Arrangement
  import VariableGrid

  const NODE_HEIGHT := 48.0
  const GAP := 48.0
  const GROUP_PAD := 16.0
  const GROUP_HEADER := 26.0
  const MAX_NEST_DEPTH := 64

  const M := Margins(GAP, GROUP_PAD, GROUP_HEADER)

  /** The nodes, then the groups; the width of each group's title, by its id; and the width of a leaf's cell. Whether an
  element is a group, and its title, go by its id. */
  datatype Network = Network(els: seq<Element>, titles: map<Id, real>, cell: real)

  function ColumnsFor(count: nat): nat { VariableGrid.AtLeastOne(CeilSqrt(count, 0)) }

  /** The ids of the members of a container. */
  function Members(net: Network, parent: Option<Id>): (r: seq<Id>)
    ensures |r| == |Kids(net.els, parent)|
    ensures forall k :: 0 <= k < |r| ==> r[k] == net.els[Kids(net.els, parent)[k]].id
  {
    var kids := Kids(net.els, parent);
    seq(|kids|, k requires 0 <= k < |kids| => net.els[kids[k]].id)
  }

  /** A leaf's cell, or a group's nested grid with padding and a title band. */
  function SizeOf(net: Network, id: Id, depth: nat): VariableGrid.Size
    requires depth <= MAX_NEST_DEPTH + 1
    decreases MAX_NEST_DEPTH + 1 - depth, 0
  {
    if depth > MAX_NEST_DEPTH || id !in net.titles then VariableGrid.Size(net.cell, NODE_HEIGHT)
    else
      var inner := InnerGrid(net, id, depth);
      VariableGrid.Size(Max(inner.width, net.titles[id]) + 2.0 * GROUP_PAD, inner.height + GROUP_HEADER + GROUP_PAD)
  }

  function InnerGrid(net: Network, id: Id, depth: nat): VariableGrid.Grid
    requires depth <= MAX_NEST_DEPTH
    decreases MAX_NEST_DEPTH - depth, |Members(net, Some(id))| + 2
  {
    var members := Members(net, Some(id));
    VariableGrid.GridOf(SizesOf(net, members, depth + 1), ColumnsFor(|members|), GAP)
  }

  function SizesOf(net: Network, ids: seq<Id>, depth: nat): (r: seq<VariableGrid.Size>)
    requires depth <= MAX_NEST_DEPTH + 1
    ensures |r| == |ids| && forall k :: 0 <= k < |ids| ==> r[k] == SizeOf(net, ids[k], depth)
    decreases MAX_NEST_DEPTH + 1 - depth, |ids| + 1
  {
    if ids == [] then [] else [SizeOf(net, ids[0], depth)] + SizesOf(net, ids[1..], depth)
  }

  /** What does not show what is in it: all but the groups. */
  function Closed(net: Network): set<Id> { IdSet(net.els) - net.titles.Keys }

  /** A container: all there is, or an element. */
  ghost predicate IsContainer(net: Network, path: Path) { path == [] || Last(path) < |net.els| }

  /** The key of a container's members, and of their ids and sizes. */
  ghost predicate KeyIs(net: Network, path: Path, parent: Option<Id>) {
    IsContainer(net, path) && parent == Key(net.els, path)
  }

  /** A node is as large as a cell, and a group no narrower than its title. */
  ghost predicate Fits(net: Network, p: Placed) {
    p.path != [] && Last(p.path) < |net.els| &&
    var id := net.els[Last(p.path)].id;
    if id in net.titles then p.box.w >= net.titles[id] + 2.0 * GROUP_PAD
    else p.box.w == net.cell && p.box.h == NODE_HEIGHT
  }

  ghost predicate AllFit(net: Network, placed: seq<Placed>) { forall p :: p in placed ==> Fits(net, p) }

  /** The grid of a container: one row at the top level, squarish inside a group. */
  function GridAt(net: Network, parent: Option<Id>, depth: nat): VariableGrid.Grid
    requires depth <= MAX_NEST_DEPTH + 1
  {
    var members := Members(net, parent);
    VariableGrid.GridOf(SizesOf(net, members, depth), if parent == None then |members| else ColumnsFor(|members|), GAP)
  }

  function KidBox(net: Network, parent: Option<Id>, depth: nat, ox: real, oy: real, k: nat): Box
    requires depth <= MAX_NEST_DEPTH && k < |Members(net, parent)|
  {
    var size, cell := SizesOf(net, Members(net, parent), depth)[k], GridAt(net, parent, depth).cells[k];
    Box(ox + cell.x, oy + cell.y, size.w, size.h)
  }

  lemma KidBoxFits(net: Network, path: Path, depth: nat, ox: real, oy: real, k: nat)
    requires IsContainer(net, path) && depth <= MAX_NEST_DEPTH && k < |KidsOf(net.els, path)|
    ensures KidsOf(net.els, path)[k] < |net.els|
    ensures Fits(net, Placed(path + [KidsOf(net.els, path)[k]], KidBox(net, Key(net.els, path), depth, ox, oy, k)))
  {
    hide VariableGrid.GridOf, InnerGrid, Kids;
    assert KidsOf(net.els, path)[k] in KidsOf(net.els, path);
    var members := Members(net, Key(net.els, path));
    assert SizesOf(net, members, depth)[k] == SizeOf(net, members[k], depth);
  }

  lemma KidBoxesApart(net: Network, parent: Option<Id>, depth: nat, ox: real, oy: real, i: nat, j: nat)
    requires depth <= MAX_NEST_DEPTH && i < |Members(net, parent)| && j < |Members(net, parent)| && i != j
    ensures Apart(M, KidBox(net, parent, depth, ox, oy, i), KidBox(net, parent, depth, ox, oy, j))
  {
    var n := |Members(net, parent)|;
    var columns := if parent == None then n else ColumnsFor(n);
    VariableGrid.ItemsApart(SizesOf(net, Members(net, parent), depth), columns, GAP, i, j);
  }

  lemma KidBoxInside(net: Network, parent: Option<Id>, depth: nat, ox: real, oy: real, k: nat)
    requires depth <= MAX_NEST_DEPTH && k < |Members(net, parent)|
    ensures var g := GridAt(net, parent, depth);
            InRegion(KidBox(net, parent, depth, ox, oy, k), ox, oy, ox + g.width, oy + g.height)
  {
    var n := |Members(net, parent)|;
    VariableGrid.ItemInside(SizesOf(net, Members(net, parent), depth), if parent == None then n else ColumnsFor(n), GAP,
                            k);
  }

  /** A group's box holds the grid of its members, its padding and its title band. */
  lemma GroupHolds(net: Network, parent: Option<Id>, depth: nat, ox: real, oy: real, k: nat)
    requires depth < MAX_NEST_DEPTH && k < |Members(net, parent)| && Members(net, parent)[k] in net.titles
    ensures var b, g := KidBox(net, parent, depth, ox, oy, k), GridAt(net, Some(Members(net, parent)[k]), depth + 1);
            g.width + 2.0 * GROUP_PAD <= b.w && b.h == g.height + GROUP_HEADER + GROUP_PAD
  {
    hide Members, SizesOf, VariableGrid.GridOf, ColumnsFor;
    var id := Members(net, parent)[k];
    assert GridAt(net, Some(id), depth + 1) == InnerGrid(net, id, depth);
    assert SizesOf(net, Members(net, parent), depth)[k] == SizeOf(net, id, depth);
  }

  /** Groups are nested deeper than the cap allows. */
  ghost predicate TooDeep(net: Network, parent: Option<Id>, depth: nat)
    decreases if depth > MAX_NEST_DEPTH then 0 else MAX_NEST_DEPTH + 1 - depth, 1
  {
    depth > MAX_NEST_DEPTH || SomeTooDeep(net, parent, depth, |Members(net, parent)|)
  }

  ghost predicate SomeTooDeep(net: Network, parent: Option<Id>, depth: nat, n: nat)
    requires depth <= MAX_NEST_DEPTH && n <= |Members(net, parent)|
    decreases MAX_NEST_DEPTH + 1 - depth, 0
  {
    exists k :: 0 <= k < n && GroupTooDeep(net, Members(net, parent)[k], depth)
  }

  lemma OneMoreDeep(net: Network, parent: Option<Id>, depth: nat, n: nat)
    requires depth <= MAX_NEST_DEPTH && n < |Members(net, parent)|
    ensures !SomeTooDeep(net, parent, depth, 0)
    ensures SomeTooDeep(net, parent, depth, n + 1) <==>
            SomeTooDeep(net, parent, depth, n) || GroupTooDeep(net, Members(net, parent)[n], depth)
  {
    hide GroupTooDeep, Members;
  }

  ghost predicate GroupTooDeep(net: Network, id: Id, depth: nat)
    requires depth <= MAX_NEST_DEPTH
    decreases MAX_NEST_DEPTH - depth, 2
  {
    id in net.titles && TooDeep(net, Some(id), depth + 1)
  }

  lemma DeepBelow(net: Network, id: Id, depth: nat)
    requires depth <= MAX_NEST_DEPTH && id in net.titles
    ensures GroupTooDeep(net, id, depth) <==> TooDeep(net, Some(id), depth + 1)
    ensures depth == MAX_NEST_DEPTH ==> GroupTooDeep(net, id, depth)
  {
  }

  lemma NoGroupNotDeep(net: Network, id: Id, depth: nat)
    requires depth <= MAX_NEST_DEPTH && id !in net.titles
    ensures !GroupTooDeep(net, id, depth)
  {
  }

  /** What is placed for one member. */
  ghost predicate KidPlaced(net: Network, path: Path, depth: nat, ox: real, oy: real, k: nat, placed: seq<Placed>,
                            overflow: bool)
    requires IsContainer(net, path) && depth <= MAX_NEST_DEPTH && k < |KidsOf(net.els, path)|
  {
    var kid, parent := KidsOf(net.els, path)[k], Key(net.els, path);
    && Sound(M, placed) && Once(placed) && AllFit(net, placed)
    && (forall q :: q in placed ==> OfKid(M, q, path, kid, KidBox(net, parent, depth, ox, oy, k)))
    && Placed(path + [kid], KidBox(net, parent, depth, ox, oy, k)) in placed
    && (!overflow ==> Complete(net.els, Closed(net), placed, path + [kid]) && AllArranged(net, placed))
    && (overflow <==> GroupTooDeep(net, Members(net, parent)[k], depth))
  }

  // ---- Where the members of a group stand ----

  function Sizes(boxes: seq<Box>): (r: seq<VariableGrid.Size>)
    ensures |r| == |boxes| && forall k :: 0 <= k < |boxes| ==> r[k] == VariableGrid.Size(boxes[k].w, boxes[k].h)
  {
    seq(|boxes|, k requires 0 <= k < |boxes| => VariableGrid.Size(boxes[k].w, boxes[k].h))
  }

  /** The boxes stand in the grid of their sizes, `columns` wide, from (`left`, `top`) on. */
  ghost predicate InGrid(boxes: seq<Box>, left: real, top: real, columns: nat) {
    var cells := VariableGrid.GridOf(Sizes(boxes), columns, 48.0).cells;
    forall k :: 0 <= k < |boxes| ==> boxes[k].x == left + cells[k].x && boxes[k].y == top + cells[k].y
  }

  /** The members of a group stand in a squarish grid, and the group is as large as that grid or its title needs. */
  ghost predicate Arranged(net: Network, placed: seq<Placed>, p: Placed) {
    && p.path != [] && Last(p.path) < |net.els|
    && (net.els[Last(p.path)].id in net.titles ==>
        exists boxes, columns :: GroupArranged(net, placed, p, boxes, columns))
  }

  ghost predicate GroupArranged(net: Network, placed: seq<Placed>, p: Placed, boxes: seq<Box>, columns: nat)
    requires p.path != [] && Last(p.path) < |net.els|
  {
    var id := net.els[Last(p.path)].id;
    && id in net.titles && KidsAt(placed, p.path, KidsOf(net.els, p.path), boxes) && Squarish(|boxes|, columns)
    && InGrid(boxes, p.box.x + 16.0, p.box.y + 26.0, columns)
    && var g := VariableGrid.GridOf(Sizes(boxes), columns, 48.0);
       p.box.w == Max(g.width, net.titles[id]) + 32.0 && p.box.h == g.height + 42.0
  }

  ghost predicate AllArranged(net: Network, placed: seq<Placed>) {
    forall p :: p in placed ==> Arranged(net, placed, p)
  }

  lemma ArrangedStill(net: Network, placed: seq<Placed>, more: seq<Placed>, p: Placed)
    requires Arranged(net, placed, p) || Arranged(net, more, p)
    ensures Arranged(net, placed + more, p)
  {
    hide KidsAt, InGrid, Squarish;
    if net.els[Last(p.path)].id in net.titles {
      var was := if Arranged(net, placed, p) then placed else more;
      var boxes, columns :| GroupArranged(net, was, p, boxes, columns);
      KidsStillAt(placed, more, p.path, KidsOf(net.els, p.path), boxes);
      assert GroupArranged(net, placed + more, p, boxes, columns);
    }
  }

  lemma BothArranged(net: Network, placed: seq<Placed>, more: seq<Placed>)
    requires AllArranged(net, placed) && AllArranged(net, more)
    ensures AllArranged(net, placed + more)
  {
    hide Arranged;
    forall p | p in placed + more ensures Arranged(net, placed + more, p) { ArrangedStill(net, placed, more, p); }
  }

  lemma KidSizes(net: Network, parent: Option<Id>, depth: nat, ox: real, oy: real, boxes: seq<Box>)
    requires depth <= MAX_NEST_DEPTH && boxes == KidBoxes(net, parent, depth, ox, oy, |Members(net, parent)|)
    ensures Sizes(boxes) == SizesOf(net, Members(net, parent), depth)
  {
    hide VariableGrid.GridOf, SizeOf, GridAt, Members;
  }

  lemma KidBoxesInGrid(net: Network, parent: Option<Id>, depth: nat, ox: real, oy: real, boxes: seq<Box>, columns: nat)
    requires depth <= MAX_NEST_DEPTH && boxes == KidBoxes(net, parent, depth, ox, oy, |Members(net, parent)|)
    requires columns == if parent == None then |boxes| else ColumnsFor(|boxes|)
    ensures GridAt(net, parent, depth) == VariableGrid.GridOf(Sizes(boxes), columns, 48.0)
    ensures InGrid(boxes, ox, oy, columns)
  {
    hide VariableGrid.GridOf, SizeOf, SizesOf, ColumnsFor, Members;
    KidSizes(net, parent, depth, ox, oy, boxes);
  }

  lemma ColumnsSquarish(n: nat)
    ensures Squarish(n, ColumnsFor(n))
  {
  }

  /** A group around its arranged members is arranged. */
  lemma GroupIsArranged(net: Network, path: Path, k: nat, depth: nat, ox: real, oy: real, own: Placed,
                        inner: seq<Placed>, boxes: seq<Box>)
    requires depth < MAX_NEST_DEPTH && IsContainer(net, path) && k < |KidsOf(net.els, path)|
    requires own == Placed(path + [KidsOf(net.els, path)[k]], KidBox(net, Key(net.els, path), depth, ox, oy, k))
    requires Members(net, Key(net.els, path))[k] in net.titles
    requires var id := Members(net, Key(net.els, path))[k];
             boxes == KidBoxes(net, Some(id), depth + 1, own.box.x + GROUP_PAD, own.box.y + GROUP_HEADER,
                               |Members(net, Some(id))|) &&
             KidsAt(inner, own.path, KidsOf(net.els, own.path), boxes)
    ensures Arranged(net, inner + [own], own)
  {
    hide VariableGrid.GridOf, SizeOf, SizesOf, InGrid, KidsAt, Squarish, Kids, ColumnsFor, KidBoxes, KidBox, GridAt,
        Members;
    KidIsMember(net, path, k);
    var id, columns := Members(net, Key(net.els, path))[k], ColumnsFor(|boxes|);
    KidsStillAt(inner, [own], own.path, KidsOf(net.els, own.path), boxes);
    KidBoxesInGrid(net, Some(id), depth + 1, own.box.x + GROUP_PAD, own.box.y + GROUP_HEADER, boxes, columns);
    ColumnsSquarish(|boxes|);
    GroupSize(net, Key(net.els, path), depth, ox, oy, k);
    assert GroupArranged(net, inner + [own], own, boxes, columns);
  }

  lemma AroundArranged(net: Network, path: Path, k: nat, depth: nat, ox: real, oy: real, own: Placed,
                       inner: seq<Placed>)
    requires depth < MAX_NEST_DEPTH && IsContainer(net, path) && k < |KidsOf(net.els, path)|
    requires own == Placed(path + [KidsOf(net.els, path)[k]], KidBox(net, Key(net.els, path), depth, ox, oy, k))
    requires Members(net, Key(net.els, path))[k] in net.titles && AllArranged(net, inner)
    requires var id := Members(net, Key(net.els, path))[k];
             KidsAt(inner, own.path, KidsOf(net.els, own.path),
                    KidBoxes(net, Some(id), depth + 1, own.box.x + GROUP_PAD, own.box.y + GROUP_HEADER,
                             |Members(net, Some(id))|))
    ensures AllArranged(net, inner + [own])
  {
    hide Arranged, KidsAt, KidBoxes, KidBox, KidsOf, Members;
    KidIsMember(net, path, k);
    var id := Members(net, Key(net.els, path))[k];
    GroupIsArranged(net, path, k, depth, ox, oy, own, inner,
                    KidBoxes(net, Some(id), depth + 1, own.box.x + GROUP_PAD, own.box.y + GROUP_HEADER,
                             |Members(net, Some(id))|));
    forall p | p in inner ensures Arranged(net, inner + [own], p) { ArrangedStill(net, inner, [own], p); }
  }

  lemma GroupSize(net: Network, parent: Option<Id>, depth: nat, ox: real, oy: real, k: nat)
    requires depth < MAX_NEST_DEPTH && k < |Members(net, parent)| && Members(net, parent)[k] in net.titles
    ensures var b, g := KidBox(net, parent, depth, ox, oy, k), GridAt(net, Some(Members(net, parent)[k]), depth + 1);
            b.w == Max(g.width, net.titles[Members(net, parent)[k]]) + 32.0 && b.h == g.height + 42.0
  {
    hide Members, SizesOf, VariableGrid.GridOf, ColumnsFor;
    var id := Members(net, parent)[k];
    assert GridAt(net, Some(id), depth + 1) == InnerGrid(net, id, depth);
    assert SizesOf(net, Members(net, parent), depth)[k] == SizeOf(net, id, depth);
  }

  // ---- One member ----

  lemma OpenedIsContainer(net: Network, path: Path)
    requires Opened(net.els, Closed(net), path)
    ensures IsContainer(net, path)
  {
  }

  lemma KidIsMember(net: Network, path: Path, k: nat)
    requires IsContainer(net, path) && k < |KidsOf(net.els, path)|
    ensures |Members(net, Key(net.els, path))| == |KidsOf(net.els, path)|
    ensures var kid := KidsOf(net.els, path)[k];
            kid < |net.els| && net.els[kid].id == Members(net, Key(net.els, path))[k] && kid in KidsOf(net.els, path)
  {
    assert KidsOf(net.els, path)[k] in KidsOf(net.els, path);
  }

  lemma LeafPlaced(net: Network, path: Path, depth: nat, ox: real, oy: real, k: nat, own: Placed)
    requires depth <= MAX_NEST_DEPTH && Opened(net.els, Closed(net), path) && k < |KidsOf(net.els, path)|
    requires own == Placed(path + [KidsOf(net.els, path)[k]], KidBox(net, Key(net.els, path), depth, ox, oy, k))
    requires Members(net, Key(net.els, path))[k] !in net.titles
    ensures KidPlaced(net, path, depth, ox, oy, k, [own], false)
  {
    hide KidBox, KidsOf, Members, Fits, Reached, Complete, Sound, Once, GroupTooDeep;
    OpenedIsContainer(net, path);
    KidIsMember(net, path, k);
    KidReached(net.els, Closed(net), path, KidsOf(net.els, path)[k]);
    KidBoxFits(net, path, depth, ox, oy, k);
    NoGroupNotDeep(net, Members(net, Key(net.els, path))[k], depth);
    OneIsSound(M, own);
    assert IsPrefix(own.path, own.path);
    assert net.els[Last(own.path)] in net.els;
    LeafComplete(net.els, Closed(net), own);
  }

  lemma GroupPlaced(net: Network, path: Path, depth: nat, ox: real, oy: real, k: nat, own: Placed, inner: seq<Placed>,
                    overflow: bool)
    requires depth < MAX_NEST_DEPTH && Opened(net.els, Closed(net), path) && k < |KidsOf(net.els, path)|
    requires own == Placed(path + [KidsOf(net.els, path)[k]], KidBox(net, Key(net.els, path), depth, ox, oy, k))
    requires Members(net, Key(net.els, path))[k] in net.titles
    requires MembersPlaced(net, own.path, Some(Members(net, Key(net.els, path))[k]), own.box.x + GROUP_PAD,
                           own.box.y + GROUP_HEADER, depth + 1, inner, overflow)
    ensures KidPlaced(net, path, depth, ox, oy, k, inner + [own], overflow)
  {
    hide KidBox, KidsOf, Members, Fits, Reached, Complete, AllBelow, Sound, Once, GridAt, TooDeep, GroupTooDeep, Closed;
    OpenedIsContainer(net, path);
    KidIsMember(net, path, k);
    KidReached(net.els, Closed(net), path, KidsOf(net.els, path)[k]);
    KidBoxFits(net, path, depth, ox, oy, k);
    GroupHolds(net, Key(net.els, path), depth, ox, oy, k);
    DeepBelow(net, Members(net, Key(net.els, path))[k], depth);
    assert IsPrefix(own.path, own.path);
    var g := GridAt(net, Some(Members(net, Key(net.els, path))[k]), depth + 1);
    AroundSound(M, own.path, inner, own.box, own.box.x + GROUP_PAD + g.width, own.box.y + GROUP_HEADER + g.height);
    if !overflow {
      AroundComplete(net.els, Closed(net), inner, own);
      AroundArranged(net, path, k, depth, ox, oy, own, inner);
    }
    forall q | q in inner + [own]
      ensures OfKid(M, q, path, KidsOf(net.els, path)[k], KidBox(net, Key(net.els, path), depth, ox, oy, k))
    {
    }
  }

  /** At the cap a group's members are not placed, and that is reported. */
  lemma CappedPlaced(net: Network, path: Path, ox: real, oy: real, k: nat, own: Placed)
    requires Opened(net.els, Closed(net), path) && k < |KidsOf(net.els, path)|
    requires own == Placed(path + [KidsOf(net.els, path)[k]],
                           KidBox(net, Key(net.els, path), MAX_NEST_DEPTH, ox, oy, k))
    requires Members(net, Key(net.els, path))[k] in net.titles
    ensures KidPlaced(net, path, MAX_NEST_DEPTH, ox, oy, k, [own], true)
  {
    hide KidBox, KidsOf, Members, Fits, Sound, Once, GroupTooDeep, Closed;
    OpenedIsContainer(net, path);
    KidIsMember(net, path, k);
    KidBoxFits(net, path, MAX_NEST_DEPTH, ox, oy, k);
    DeepBelow(net, Members(net, Key(net.els, path))[k], MAX_NEST_DEPTH);
    OneIsSound(M, own);
    assert IsPrefix(own.path, own.path);
  }

  /** One member, at its cell; a group with everything in it. */
  method PlaceKid(net: Network, path: Path, parent: Option<Id>, depth: nat, ox: real, oy: real, k: nat)
    returns (placed: seq<Placed>, overflow: bool)
    requires depth <= MAX_NEST_DEPTH && Opened(net.els, Closed(net), path) && KeyIs(net, path, parent)
    requires k < |KidsOf(net.els, path)|
    ensures KidPlaced(net, path, depth, ox, oy, k, placed, overflow)
    decreases MAX_NEST_DEPTH + 1 - depth, 0
  {
    hide KidBox, KidsOf, Opened, KidPlaced, MembersPlaced, Members, Closed;
    KidIsMember(net, path, k);
    var kid, box := KidsOf(net.els, path)[k], KidBox(net, parent, depth, ox, oy, k);
    var own := Placed(path + [kid], box);
    var id := net.els[kid].id;
    if id !in net.titles {
      LeafPlaced(net, path, depth, ox, oy, k, own);
      return [own], false;
    }
    GroupOpened(net, path, k);
    var inner;
    inner, overflow := Place(net, own.path, Some(id), box.x + GROUP_PAD, box.y + GROUP_HEADER, depth + 1);
    if depth == MAX_NEST_DEPTH {
      CappedPlaced(net, path, ox, oy, k, own);
      return [own], true;
    }
    GroupPlaced(net, path, depth, ox, oy, k, own, inner, overflow);
    placed := inner + [own];
  }

  lemma GroupOpened(net: Network, path: Path, k: nat)
    requires Opened(net.els, Closed(net), path) && k < |KidsOf(net.els, path)|
    requires Members(net, Key(net.els, path))[k] in net.titles
    ensures var at := path + [KidsOf(net.els, path)[k]];
            Opened(net.els, Closed(net), at) && KeyIs(net, at, Some(Members(net, Key(net.els, path))[k]))
  {
    KidIsMember(net, path, k);
    KidReached(net.els, Closed(net), path, KidsOf(net.els, path)[k]);
  }

  ghost function KidBoxes(net: Network, parent: Option<Id>, depth: nat, ox: real, oy: real, n: nat): (r: seq<Box>)
    requires depth <= MAX_NEST_DEPTH && n <= |Members(net, parent)|
    ensures |r| == n && forall k :: 0 <= k < n ==> r[k] == KidBox(net, parent, depth, ox, oy, k)
  {
    seq(n, k requires 0 <= k < n => KidBox(net, parent, depth, ox, oy, k))
  }

  /** The first `n` members are placed. */
  ghost predicate PlacedUpTo(net: Network, path: Path, depth: nat, ox: real, oy: real, n: nat, placed: seq<Placed>,
                             overflow: bool)
    requires IsContainer(net, path) && depth <= MAX_NEST_DEPTH && n <= |KidsOf(net.els, path)|
  {
    var kids, parent := KidsOf(net.els, path), Key(net.els, path);
    var soFar := Sound(M, placed) && Once(placed) && AllFit(net, placed) &&
                 OfKids(M, placed, path, kids, KidBoxes(net, parent, depth, ox, oy, n)) &&
                 (overflow <==> SomeTooDeep(net, parent, depth, n)) &&
                 (!overflow ==>
                    CompleteKids(net.els, Closed(net), placed, path, kids, n) && AllArranged(net, placed)) &&
                 KidsAt(placed, path, kids[..n], KidBoxes(net, parent, depth, ox, oy, n));
    soFar
  }

  lemma NextBox(net: Network, parent: Option<Id>, depth: nat, ox: real, oy: real, n: nat, boxes: seq<Box>, box: Box)
    requires depth <= MAX_NEST_DEPTH && n < |Members(net, parent)|
    requires boxes == KidBoxes(net, parent, depth, ox, oy, n) && box == KidBox(net, parent, depth, ox, oy, n)
    ensures KidBoxes(net, parent, depth, ox, oy, n + 1) == boxes + [box]
    ensures forall k :: 0 <= k < n ==> Apart(M, boxes[k], box)
  {
    hide KidBox, Apart, Members;
    forall k | 0 <= k < n ensures Apart(M, boxes[k], box) { KidBoxesApart(net, parent, depth, ox, oy, k, n); }
  }

  lemma PlacedNext(net: Network, path: Path, depth: nat, ox: real, oy: real, n: nat, placed: seq<Placed>,
                   overflow: bool,
                   more: seq<Placed>, over: bool)
    requires IsContainer(net, path) && depth <= MAX_NEST_DEPTH && n < |KidsOf(net.els, path)|
    requires PlacedUpTo(net, path, depth, ox, oy, n, placed, overflow)
    requires KidPlaced(net, path, depth, ox, oy, n, more, over)
    ensures PlacedUpTo(net, path, depth, ox, oy, n + 1, placed + more, overflow || over)
  {
    hide KidBox, KidBoxes, GroupTooDeep, SomeTooDeep, Sound, Once, OfKids, OfKid, Apart, Kids, Members, Complete;
    hide CompleteKids, Fits, Closed, AllArranged, KidsAt;
    var kids, parent := KidsOf(net.els, path), Key(net.els, path);
    var boxes, box := KidBoxes(net, parent, depth, ox, oy, n), KidBox(net, parent, depth, ox, oy, n);
    NextBox(net, parent, depth, ox, oy, n, boxes, box);
    OneMoreDeep(net, parent, depth, n);
    AddKidSound(M, path, kids, boxes, box, placed, more);
    AddKidOf(M, path, kids, boxes, box, placed, more);
    if !overflow && !over {
      AddKidComplete(net.els, Closed(net), placed, more, path, kids, n);
      BothArranged(net, placed, more);
    }
    OneMoreAt(placed, more, path, kids, boxes, box);
  }

  /** What is placed for the members of a container: boxes in its region that nest and keep apart as the members do,
  each as large as it takes, and, unless groups nest too deep, one for each that is reached. */
  ghost predicate MembersPlaced(net: Network, path: Path, parent: Option<Id>, ox: real, oy: real, depth: nat,
                                placed: seq<Placed>, overflow: bool)
    requires depth <= MAX_NEST_DEPTH + 1
  {
    var g := GridAt(net, parent, depth);
    && NestedIn(M, placed, path, ox, oy, ox + g.width, oy + g.height) && AllFit(net, placed)
    && (!overflow ==> AllBelow(net.els, Closed(net), placed, path) && AllArranged(net, placed))
    && (overflow <==> TooDeep(net, parent, depth))
    && (depth <= MAX_NEST_DEPTH && IsContainer(net, path) ==>
          KidsAt(placed, path, KidsOf(net.els, path),
                 KidBoxes(net, parent, depth, ox, oy, |Members(net, parent)|)))
  }

  lemma PlacedAll(net: Network, path: Path, depth: nat, ox: real, oy: real, placed: seq<Placed>, overflow: bool)
    requires IsContainer(net, path) && depth <= MAX_NEST_DEPTH
    requires PlacedUpTo(net, path, depth, ox, oy, |KidsOf(net.els, path)|, placed, overflow)
    ensures MembersPlaced(net, path, Key(net.els, path), ox, oy, depth, placed, overflow)
  {
    hide KidBox, Sound, Once, OfKids, InRegion, Kids, Members, GridAt, SomeTooDeep, CompleteKids, Fits, Closed,
        AllBelow;
    var parent, kids := Key(net.els, path), KidsOf(net.els, path);
    var g, boxes := GridAt(net, parent, depth), KidBoxes(net, parent, depth, ox, oy, |kids|);
    forall k | 0 <= k < |kids| ensures InRegion(boxes[k], ox, oy, ox + g.width, oy + g.height) {
      KidBoxInside(net, parent, depth, ox, oy, k);
    }
    KidsNested(M, path, kids, placed, boxes, ox, oy, ox + g.width, oy + g.height);
    assert kids[..|kids|] == kids;
    if !overflow { KidsAreAll(net.els, Closed(net), placed, path, kids); }
  }

  /** The members of a container. */
  method Place(net: Network, path: Path, parent: Option<Id>, ox: real, oy: real, depth: nat)
    returns (placed: seq<Placed>, overflow: bool)
    requires depth <= MAX_NEST_DEPTH + 1 && Opened(net.els, Closed(net), path) && KeyIs(net, path, parent)
    ensures MembersPlaced(net, path, parent, ox, oy, depth, placed, overflow)
    decreases MAX_NEST_DEPTH + 1 - depth, 1
  {
    placed, overflow := [], false;
    if depth > MAX_NEST_DEPTH { return [], true; }
    NonePlaced(net, path, depth, ox, oy);
    hide PlacedUpTo, KidPlaced, MembersPlaced, Opened, KidsOf;
    for i := 0 to |KidsOf(net.els, path)|
      invariant PlacedUpTo(net, path, depth, ox, oy, i, placed, overflow)
    {
      var more, over := PlaceKid(net, path, parent, depth, ox, oy, i);
      PlacedNext(net, path, depth, ox, oy, i, placed, overflow, more, over);
      placed, overflow := placed + more, overflow || over;
    }
    PlacedAll(net, path, depth, ox, oy, placed, overflow);
  }

  lemma NonePlaced(net: Network, path: Path, depth: nat, ox: real, oy: real)
    requires IsContainer(net, path) && depth <= MAX_NEST_DEPTH
    ensures PlacedUpTo(net, path, depth, ox, oy, 0, [], false)
  {
  }

  /** A path of elements from a root down, all but the last of which are groups. */
  ghost predicate Grouped(net: Network, path: Path) {
    IsPath(net.els, path) && forall k :: 0 <= k < |path| - 1 ==> net.els[path[k]].id in net.titles
  }

  lemma ReachedIsGrouped(net: Network, path: Path)
    ensures Reached(net.els, Closed(net), path) <==> Grouped(net, path)
    ensures Grouped(net, path) ==> path != []
    ensures IsPrefix([], path)
  {
    if IsPath(net.els, path) {
      forall k | 0 <= k < |path| ensures net.els[path[k]].id in IdSet(net.els) { assert net.els[path[k]] in net.els; }
    }
  }

  /** The ungrouped members stand in one row. */
  ghost predicate TopInRow(net: Network, placed: seq<Placed>) {
    exists boxes :: KidsAt(placed, [], KidsOf(net.els, []), boxes) && InGrid(boxes, 0.0, 0.0, |boxes|)
  }

  lemma TopPlaced(net: Network, placed: seq<Placed>)
    requires MembersPlaced(net, [], None, 0.0, 0.0, 0, placed, false)
    ensures TopInRow(net, placed) && AllArranged(net, placed)
  {
    hide NestedIn, AllFit, AllBelow, TooDeep, AllArranged, KidsAt, InGrid, GridAt;
    var boxes := KidBoxes(net, None, 0, 0.0, 0.0, |Members(net, None)|);
    KidBoxesInGrid(net, None, 0, 0.0, 0.0, boxes, |boxes|);
  }

  /** Lays out the network from its ungrouped members down. It fails exactly when groups nest too deep, and otherwise
  gives each element under nothing but groups one box, as large as it takes, nested and kept apart as the elements
  are. */
  method LayoutNetwork(net: Network) returns (r: Option<seq<Placed>>)
    ensures r.None? <==> TooDeep(net, None, 0)
    ensures r.Some? ==> Sound(M, r.value) && Once(r.value) && AllFit(net, r.value)
    ensures r.Some? ==> forall path :: HasPath(r.value, path) <==> Grouped(net, path)
    ensures r.Some? ==> AllArranged(net, r.value) && TopInRow(net, r.value)
  {
    hide TooDeep, GridAt, Kids, Sound, Once, Reached, Grouped, AllFit, AllArranged, TopInRow, KidsAt, KidBoxes;
    var placed, overflow := Place(net, [], None, 0.0, 0.0, 0);
    forall path: Path ensures !overflow ==> (HasPath(placed, path) <==> Grouped(net, path)) {
      ReachedIsGrouped(net, path);
    }
    if !overflow { TopPlaced(net, placed); }
    r := if overflow then None else Some(placed);
  }
}
