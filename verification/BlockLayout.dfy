/** Nested block diagrams: composites sized to their content, and every box placed. */
module BlockLayout {
  import opened Wrappers
  import opened BlockGrid

  const NODE_HEIGHT := 40.0
  const MIN_CELL_WIDTH := 48.0
  const GROUP_PAD := 14.0
  const GROUP_HEADER := 24.0
  const MAX_NEST_DEPTH := 64

  datatype Group = Group(span: int, columns: int, labelWidth: real, children: seq<Id>)

  /** The composites, the declared spans of the leaves, and the width of a cell. */
  datatype Diagram = Diagram(groups: map<Id, Group>, spans: map<Id, int>, cell: real)

  predicate ValidDiagram(d: Diagram) { d.cell >= MIN_CELL_WIDTH }

  function Pitch(d: Diagram): real { d.cell + GAP }

  function AtLeastOne(n: int): int { if n < 1 then 1 else n }

  function MinInt(a: int, b: int): int { if a <= b then a else b }

  function MaxInt(a: int, b: int): int { if a >= b then a else b }

  function Ceil(x: real): (n: int)
    ensures x <= n as real < x + 1.0
  {
    -((-x).Floor)
  }

  /** The width of `span` cells and the gaps between them. */
  function SpanWidth(d: Diagram, span: int): real { span as real * d.cell + (span - 1) as real * GAP }

  // ---- Sizes ----

  function ItemOf(d: Diagram, id: Id, columns: int, depth: nat): Item
    requires ValidDiagram(d) && depth <= MAX_NEST_DEPTH + 1
    decreases MAX_NEST_DEPTH + 1 - depth, 0
  {
    if id !in d.groups || depth > MAX_NEST_DEPTH then
      var span := AtLeastOne(MinInt(if id in d.spans then d.spans[id] else 1, columns));
      Item(span, SpanWidth(d, span), NODE_HEIGHT)
    else
      var g := d.groups[id];
      var inner := MeasureContainer(d, g.children, g.columns, depth + 1);
      var natural := NaturalWidth(g, inner);
      var span := AtLeastOne(MinInt(MaxInt(g.span, ColumnsFor(d, natural)), columns));
      Item(span, Max(SpanWidth(d, span), natural), inner.h + GROUP_HEADER + GROUP_PAD)
  }

  /** The width a composite needs for its content and its title. */
  function NaturalWidth(g: Group, inner: Extent): real { Max(inner.w, g.labelWidth) + 2.0 * GROUP_PAD }

  /** The columns a width needs. */
  function ColumnsFor(d: Diagram, width: real): int
    requires ValidDiagram(d)
  {
    AtLeastOne(Ceil((width + GAP) / Pitch(d)))
  }

  function Items(d: Diagram, ids: seq<Id>, columns: int, depth: nat): (r: seq<Item>)
    requires ValidDiagram(d) && depth <= MAX_NEST_DEPTH + 1
    ensures |r| == |ids| && forall k :: 0 <= k < |ids| ==> r[k] == ItemOf(d, ids[k], columns, depth)
    decreases MAX_NEST_DEPTH + 1 - depth, |ids| + 1
  {
    if ids == [] then [] else [ItemOf(d, ids[0], columns, depth)] + Items(d, ids[1..], columns, depth)
  }

  function MeasureContainer(d: Diagram, ids: seq<Id>, columns: int, depth: nat): Extent
    requires ValidDiagram(d) && depth <= MAX_NEST_DEPTH + 1
    decreases MAX_NEST_DEPTH + 1 - depth, |ids| + 2
  {
    Content(Items(d, ids, columns, depth), columns, Pitch(d))
  }

  lemma SpanWidthInPitches(d: Diagram, span: int)
    ensures SpanWidth(d, span) == span as real * Pitch(d) - GAP
  {
    assert span as real * (d.cell + GAP) == span as real * d.cell + span as real * GAP;
  }

  /** A width fits the columns it is said to need. */
  lemma ColumnsSuffice(d: Diagram, width: real)
    requires ValidDiagram(d)
    ensures width <= ColumnsFor(d, width) as real * Pitch(d) - GAP
  {
    var q := (width + GAP) / Pitch(d);
    assert q * Pitch(d) == width + GAP;
    ScaleUp(q, ColumnsFor(d, width) as real, Pitch(d));
  }

  lemma ScaleUp(a: real, b: real, k: real)
    requires a <= b && k >= 0.0
    ensures a * k <= b * k
  {
    assert b * k - a * k == (b - a) * k;
  }

  lemma SpannedWidth(d: Diagram, natural: real, fit: int, span: int, columns: int)
    requires ValidDiagram(d) && natural <= fit as real * Pitch(d) - GAP && (span < columns ==> fit <= span)
    ensures Max(SpanWidth(d, span), natural) <= span as real * Pitch(d) - GAP || span >= columns
  {
    SpanWidthInPitches(d, span);
    if span < columns { ScaleUp(fit as real, span as real, Pitch(d)); }
  }

  /** An item is as wide as its span, unless it spans the whole row. */
  lemma ItemFitted(d: Diagram, id: Id, columns: int, depth: nat)
    requires ValidDiagram(d) && depth <= MAX_NEST_DEPTH + 1
    ensures FitsSpan(ItemOf(d, id, columns, depth), columns, Pitch(d))
  {
    hide SpanWidth, Pitch, MeasureContainer, NaturalWidth, ColumnsFor;
    var it := ItemOf(d, id, columns, depth);
    if id in d.groups && depth <= MAX_NEST_DEPTH {
      var g := d.groups[id];
      var natural := NaturalWidth(g, MeasureContainer(d, g.children, g.columns, depth + 1));
      ColumnsSuffice(d, natural);
      SpannedWidth(d, natural, ColumnsFor(d, natural), it.span, columns);
    } else {
      SpanWidthInPitches(d, it.span);
    }
  }

  lemma ItemsFitted(d: Diagram, ids: seq<Id>, columns: int, depth: nat)
    requires ValidDiagram(d) && depth <= MAX_NEST_DEPTH + 1
    ensures Fitted(Items(d, ids, columns, depth), columns, Pitch(d))
  {
    hide FitsSpan, ItemOf, Items;
    forall k | 0 <= k < |ids| ensures FitsSpan(Items(d, ids, columns, depth)[k], columns, Pitch(d)) {
      ItemFitted(d, ids[k], columns, depth);
    }
  }

  /** A composite is wide and tall enough for its content, its padding and its title band. */
  lemma GroupHoldsContent(d: Diagram, id: Id, columns: int, depth: nat)
    requires ValidDiagram(d) && depth <= MAX_NEST_DEPTH && id in d.groups
    ensures var g := d.groups[id];
            var inner := MeasureContainer(d, g.children, g.columns, depth + 1);
            var it := ItemOf(d, id, columns, depth);
            it.w >= inner.w + 2.0 * GROUP_PAD && it.h == inner.h + GROUP_HEADER + GROUP_PAD
  {
  }

  // ---- Placement ----

  /** A placed box and the way to it: which child of which child of the roots it is. */
  datatype Placed = Placed(path: seq<nat>, id: Id, box: Box)

  function Shift(b: Box, ox: real, oy: real): Box { Box(ox + b.x, oy + b.y, b.w, b.h) }

  function ChildBox(d: Diagram, ids: seq<Id>, columns: int, ox: real, oy: real, depth: nat, k: nat): Box
    requires ValidDiagram(d) && depth <= MAX_NEST_DEPTH && k < |ids|
  {
    Shift(CellBox(Items(d, ids, columns, depth), columns, Pitch(d), k), ox, oy)
  }

  /** Everything placed for a container: each child, followed by what is inside it. */
  function PlaceAll(d: Diagram, ids: seq<Id>, columns: int, ox: real, oy: real, depth: nat, path: seq<nat>): seq<Placed>
    requires ValidDiagram(d)
    decreases if depth > MAX_NEST_DEPTH then 0 else MAX_NEST_DEPTH + 1 - depth, |ids| + 1
  {
    if depth > MAX_NEST_DEPTH then [] else PlaceFrom(d, ids, columns, ox, oy, depth, path, 0)
  }

  function PlaceFrom(d: Diagram, ids: seq<Id>, columns: int, ox: real, oy: real, depth: nat, path: seq<nat>,
                     k: nat): seq<Placed>
    requires ValidDiagram(d) && depth <= MAX_NEST_DEPTH && k <= |ids|
    decreases MAX_NEST_DEPTH + 1 - depth, |ids| - k
  {
    if k == |ids| then []
    else
      [Placed(path + [k], ids[k], ChildBox(d, ids, columns, ox, oy, depth, k))] +
      PlaceInside(d, ids, columns, ox, oy, depth, path, k) +
      PlaceFrom(d, ids, columns, ox, oy, depth, path, k + 1)
  }

  function PlaceInside(d: Diagram, ids: seq<Id>, columns: int, ox: real, oy: real, depth: nat, path: seq<nat>,
                       k: nat): seq<Placed>
    requires ValidDiagram(d) && depth <= MAX_NEST_DEPTH && k < |ids|
    decreases MAX_NEST_DEPTH + 1 - depth, 0
  {
    if ids[k] !in d.groups then []
    else
      var g, b := d.groups[ids[k]], ChildBox(d, ids, columns, ox, oy, depth, k);
      PlaceAll(d, g.children, g.columns, b.x + GROUP_PAD, b.y + GROUP_HEADER, depth + 1, path + [k])
  }

  /** Composites are nested deeper than the cap allows. */
  ghost predicate TooDeep(d: Diagram, ids: seq<Id>, depth: nat)
    decreases if depth > MAX_NEST_DEPTH then 0 else MAX_NEST_DEPTH + 1 - depth
  {
    depth > MAX_NEST_DEPTH || exists id :: id in ids && id in d.groups && TooDeep(d, d.groups[id].children, depth + 1)
  }

  lemma PlaceStep(d: Diagram, ids: seq<Id>, columns: int, ox: real, oy: real, depth: nat, path: seq<nat>, k: nat,
                  done: seq<Placed>)
    requires ValidDiagram(d) && depth <= MAX_NEST_DEPTH && k < |ids|
    ensures done + PlaceFrom(d, ids, columns, ox, oy, depth, path, k) ==
            done + [Placed(path + [k], ids[k], ChildBox(d, ids, columns, ox, oy, depth, k))] +
            PlaceInside(d, ids, columns, ox, oy, depth, path, k) +
            PlaceFrom(d, ids, columns, ox, oy, depth, path, k + 1)
  {
    var head := [Placed(path + [k], ids[k], ChildBox(d, ids, columns, ox, oy, depth, k))];
    var inside := PlaceInside(d, ids, columns, ox, oy, depth, path, k);
    var rest := PlaceFrom(d, ids, columns, ox, oy, depth, path, k + 1);
    assert done + (head + inside + rest) == done + head + inside + rest;
  }

  ghost predicate SomeTooDeep(d: Diagram, ids: seq<Id>, depth: nat) {
    exists id :: id in ids && id in d.groups && TooDeep(d, d.groups[id].children, depth + 1)
  }

  lemma SomeTooDeepStep(d: Diagram, ids: seq<Id>, depth: nat, k: nat)
    requires k < |ids|
    ensures SomeTooDeep(d, ids[..k + 1], depth) <==>
            SomeTooDeep(d, ids[..k], depth) || (ids[k] in d.groups && TooDeep(d, d.groups[ids[k]].children, depth + 1))
  {
    hide TooDeep;
    assert forall id :: id in ids[..k + 1] <==> id in ids[..k] || id == ids[k];
  }

  /** One child: its box, and for a composite what is inside it. */
  method PlaceChild(d: Diagram, ids: seq<Id>, columns: int, ox: real, oy: real, depth: nat, path: seq<nat>, k: nat,
                    box: Box)
    returns (placed: seq<Placed>, overflow: bool)
    requires ValidDiagram(d) && depth <= MAX_NEST_DEPTH && k < |ids| &&
             box == ChildBox(d, ids, columns, ox, oy, depth, k)
    ensures placed == [Placed(path + [k], ids[k], box)] + PlaceInside(d, ids, columns, ox, oy, depth, path, k)
    ensures overflow <==> ids[k] in d.groups && TooDeep(d, d.groups[ids[k]].children, depth + 1)
    decreases MAX_NEST_DEPTH + 1 - depth, 0
  {
    hide PlaceAll, PlaceFrom, TooDeep, ChildBox;
    placed, overflow := [Placed(path + [k], ids[k], box)], false;
    if ids[k] in d.groups {
      var g := d.groups[ids[k]];
      var more;
      more, overflow := Place(d, g.children, g.columns, box.x + GROUP_PAD, box.y + GROUP_HEADER, depth + 1, path + [k]);
      placed := placed + more;
    }
  }

  /** Places the children of one container and recurses into composites, and reports running over the cap. */
  method Place(d: Diagram, ids: seq<Id>, columns: int, ox: real, oy: real, depth: nat, path: seq<nat>)
    returns (placed: seq<Placed>, overflow: bool)
    requires ValidDiagram(d)
    ensures placed == PlaceAll(d, ids, columns, ox, oy, depth, path)
    ensures overflow <==> TooDeep(d, ids, depth)
    decreases if depth > MAX_NEST_DEPTH then 0 else MAX_NEST_DEPTH + 1 - depth, 1
  {
    placed, overflow := [], false;
    if depth > MAX_NEST_DEPTH { return [], true; }
    var items := Items(d, ids, columns, depth);
    var cells, extent := AutoPlace(items, columns, Pitch(d));
    assert PlaceAll(d, ids, columns, ox, oy, depth, path) ==
        placed + PlaceFrom(d, ids, columns, ox, oy, depth, path, 0);
    assert !SomeTooDeep(d, ids[..0], depth);
    assert TooDeep(d, ids, depth) == SomeTooDeep(d, ids, depth);
    hide PlaceAll, PlaceFrom, PlaceInside, TooDeep, SomeTooDeep, CellBox, Items, ItemOf, Pitch, Content;
    for k := 0 to |ids|
      invariant PlaceAll(d, ids, columns, ox, oy, depth, path) ==
                placed + PlaceFrom(d, ids, columns, ox, oy, depth, path, k)
      invariant overflow == SomeTooDeep(d, ids[..k], depth)
    {
      PlaceStep(d, ids, columns, ox, oy, depth, path, k, placed);
      SomeTooDeepStep(d, ids, depth, k);
      CellSize(items, columns, Pitch(d), k);
      var box := Box(ox + cells[k].0, oy + cells[k].1, items[k].w, items[k].h);
      var more, over := PlaceChild(d, ids, columns, ox, oy, depth, path, k, box);
      Associates(placed, [Placed(path + [k], ids[k], box)], PlaceInside(d, ids, columns, ox, oy, depth, path, k));
      placed, overflow := placed + more, overflow || over;
    }
    assert ids[..|ids|] == ids;
    PlacedEnd(d, ids, columns, ox, oy, depth, path, placed);
  }

  lemma PlacedEnd(d: Diagram, ids: seq<Id>, columns: int, ox: real, oy: real, depth: nat, path: seq<nat>,
                  done: seq<Placed>)
    requires ValidDiagram(d) && depth <= MAX_NEST_DEPTH
    ensures done + PlaceFrom(d, ids, columns, ox, oy, depth, path, |ids|) == done
  {
  }

  lemma CellSize(items: seq<Item>, columns: int, pitch: real, k: nat)
    requires k < |items|
    ensures CellBox(items, columns, pitch, k).w == items[k].w && CellBox(items, columns, pitch, k).h == items[k].h
  {
  }

  /** Lays out the roots; nesting over the cap is an error. */
  method LayoutBlock(d: Diagram, roots: seq<Id>, columns: int) returns (r: Option<seq<Placed>>)
    requires ValidDiagram(d)
    ensures r.None? <==> TooDeep(d, roots, 0)
    ensures r.Some? ==> r.value == PlaceAll(d, roots, columns, 0.0, 0.0, 0, [])
  {
    hide PlaceAll, TooDeep;
    var placed, overflow := Place(d, roots, columns, 0.0, 0.0, 0, []);
    r := if overflow then None else Some(placed);
  }
}
