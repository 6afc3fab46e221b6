/** How the grid of a block container fills: which items share a row, where each starts, and how little room is
taken. */
module BlockRows {
  import opened Wrappers
  import opened BlockGrid
  import opened BlockLayout

  // ---- Slots ----

  lemma {:induction false} SlotAfter(items: seq<Item>, columns: int, row: nat, col: int, k: nat)
    requires k + 1 < |items| && col >= 0 && forall i :: 0 <= i < |items| ==> items[i].span >= 1
    ensures var slots := Slots(items, columns, row, col);
            slots[k].col >= 0 &&
            slots[k + 1] == if slots[k].col + items[k].span + items[k + 1].span <= columns
                            then Slot(slots[k].col + items[k].span, slots[k].row) else Slot(0, slots[k].row + 1)
  {
    if k > 0 {
      var s := Fit(columns, row, col, items[0].span);
      SlotAfter(items[1..], columns, s.row, s.col + items[0].span, k - 1);
    }
  }

  /** The next item goes on in the row, right behind, exactly when it fits the columns that are left; otherwise it
  starts the next row. */
  lemma RowsFill(items: seq<Item>, columns: int, k: nat)
    requires k + 1 < |items| && forall i :: 0 <= i < |items| ==> items[i].span >= 1
    ensures var slots := Slots(items, columns, 0, 0);
            && slots[0] == Slot(0, 0)
            && (slots[k + 1].row == slots[k].row <==> slots[k].col + items[k].span + items[k + 1].span <= columns)
            && (slots[k + 1].row == slots[k].row ==> slots[k + 1].col == slots[k].col + items[k].span)
            && (slots[k + 1].row != slots[k].row ==> slots[k + 1] == Slot(0, slots[k].row + 1))
  {
    SlotAfter(items, columns, 0, 0, k);
  }

  /** Items of one column each fill the rows from left to right. */
  lemma {:induction false} UnitSlots(items: seq<Item>, columns: int, k: nat)
    requires k < |items| && forall i :: 0 <= i < |items| ==> items[i].span == 1
    ensures var n := AtLeastOne(columns); Slots(items, columns, 0, 0)[k] == Slot(k % n, k / n)
  {
    if k > 0 {
      UnitSlots(items, columns, k - 1);
      SlotAfter(items, columns, 0, 0, k - 1);
      NextDivides(k - 1, AtLeastOne(columns));
    }
  }

  lemma NextDivides(k: nat, n: int)
    requires n >= 1
    ensures if k % n + 1 < n then (k + 1) % n == k % n + 1 && (k + 1) / n == k / n
            else (k + 1) % n == 0 && (k + 1) / n == k / n + 1
  {
    var q, r := k / n, k % n;
    assert k == q * n + r;
    if r + 1 < n { DividesBy(k + 1, n, q, r + 1); } else { DividesBy(k + 1, n, q + 1, 0); }
  }

  // ---- Rows stand close ----

  ghost predicate NoNegatives(items: seq<Item>) {
    forall k :: 0 <= k < |items| ==> items[k].span >= 1 && items[k].w > 0.0 && items[k].h > 0.0
  }

  ghost predicate InRowOf(items: seq<Item>, columns: int, k: nat, i: nat)
    requires k < |items|
  {
    i < |items| && Slots(items, columns, 0, 0)[i].row == Slots(items, columns, 0, 0)[k].row
  }

  /** Every row begins the gap below the tallest item of the row before it, and no lower. */
  lemma RowsTouch(items: seq<Item>, columns: int, pitch: real, k: nat)
    requires k + 1 < |items| && NoNegatives(items) && !InRowOf(items, columns, k, k + 1)
    ensures var b := (i: nat) requires i < |items| => CellBox(items, columns, pitch, i);
            && (forall i :: InRowOf(items, columns, k, i) ==> b(i).y + b(i).h + GAP <= b(k + 1).y)
            && exists i :: InRowOf(items, columns, k, i) && b(k + 1).y == b(i).y + b(i).h + GAP
  {
    var slots := Slots(items, columns, 0, 0);
    RowsFill(items, columns, k);
    var r := slots[k].row;
    var i := TallestInRow(items, slots, r, k);
    assert InRowOf(items, columns, k, i);
    assert RowY(items, slots, r + 1) == RowY(items, slots, r) + RowHeight(items, slots, r) + GAP;
  }

  /** The content is no larger than its items: one reaches its right border, and one its bottom. */
  lemma ContentIsSnug(items: seq<Item>, columns: int, pitch: real)
    requires items != [] && NoNegatives(items) && pitch >= 0.0
    ensures var e := Content(items, columns, pitch);
            && (exists k :: 0 <= k < |items| &&
                  CellBox(items, columns, pitch, k).x + CellBox(items, columns, pitch, k).w == e.w)
            && (exists k :: 0 <= k < |items| &&
                  CellBox(items, columns, pitch, k).y + CellBox(items, columns, pitch, k).h == e.h)
  {
    hide Slots, RowHeight, RowCount, Width, CellX;
    var slots := Slots(items, columns, 0, 0);
    ColumnsFromZero(items, columns, pitch);
    var k := Rightmost(items, slots, pitch);
    BoxAt(items, columns, pitch, k);
    var l := LastRow(slots);
    var m := TallestInRow(items, slots, slots[l].row, l);
    BoxAt(items, columns, pitch, m);
    BottomOfLast(items, columns, pitch, slots[l].row);
  }

  lemma ColumnsFromZero(items: seq<Item>, columns: int, pitch: real)
    requires NoNegatives(items) && pitch >= 0.0
    ensures forall i :: 0 <= i < |items| ==> CellX(Slots(items, columns, 0, 0)[i], pitch) >= 0.0
  {
    forall i | 0 <= i < |items| ensures CellX(Slots(items, columns, 0, 0)[i], pitch) >= 0.0 {
      SlotFits(items, columns, 0, 0, i);
    }
  }

  lemma BoxAt(items: seq<Item>, columns: int, pitch: real, k: nat)
    requires k < |items|
    ensures var b, slots := CellBox(items, columns, pitch, k), Slots(items, columns, 0, 0);
            b.x + b.w == CellX(slots[k], pitch) + items[k].w && b.y == RowY(items, slots, slots[k].row) &&
            b.h == items[k].h
  {
  }

  lemma BottomOfLast(items: seq<Item>, columns: int, pitch: real, r: nat)
    requires RowCount(Slots(items, columns, 0, 0)) == r + 1
    ensures var slots := Slots(items, columns, 0, 0);
            Content(items, columns, pitch) ==
            Extent(Width(items, slots, pitch), RowY(items, slots, r) + RowHeight(items, slots, r))
  {
    hide RowHeight, RowCount, Width, Slots;
    var slots := Slots(items, columns, 0, 0);
    assert RowY(items, slots, r + 1) == RowY(items, slots, r) + RowHeight(items, slots, r) + GAP;
  }

  lemma {:induction false} TallestInRow(items: seq<Item>, slots: seq<Slot>, r: nat, k: nat) returns (i: nat)
    requires |items| == |slots| && k < |items| && slots[k].row == r && NoNegatives(items)
    ensures i < |items| && slots[i].row == r && items[i].h == RowHeight(items, slots, r)
  {
    var n := |items| - 1;
    if exists j :: 0 <= j < n && slots[j].row == r {
      var j :| 0 <= j < n && slots[j].row == r;
      i := TallestInRow(items[..n], slots[..n], r, j);
      if slots[n].row == r && items[n].h > items[i].h { i := n; }
    } else {
      i := n;
      NoneInRow(items[..n], slots[..n], r);
    }
  }

  lemma {:induction false} NoneInRow(items: seq<Item>, slots: seq<Slot>, r: nat)
    requires |items| == |slots| && forall j :: 0 <= j < |slots| ==> slots[j].row != r
    ensures RowHeight(items, slots, r) == 0.0
  {
    if items != [] { NoneInRow(items[..|items| - 1], slots[..|items| - 1], r); }
  }

  lemma {:induction false} LastRow(slots: seq<Slot>) returns (l: nat)
    requires slots != []
    ensures l < |slots| && RowCount(slots) == slots[l].row + 1
  {
    var n := |slots| - 1;
    l := n;
    if n > 0 {
      var m := LastRow(slots[..n]);
      if slots[m].row > slots[n].row { l := m; }
    }
  }

  lemma {:induction false} Rightmost(items: seq<Item>, slots: seq<Slot>, pitch: real) returns (k: nat)
    requires items != [] && |items| == |slots| && NoNegatives(items)
    requires forall i :: 0 <= i < |slots| ==> CellX(slots[i], pitch) >= 0.0
    ensures k < |items| && Width(items, slots, pitch) == CellX(slots[k], pitch) + items[k].w
  {
    hide CellX;
    var n := |items| - 1;
    k := n;
    if n > 0 {
      var m := Rightmost(items[..n], slots[..n], pitch);
      if CellX(slots[m], pitch) + items[m].w > CellX(slots[n], pitch) + items[n].w { k := m; }
    }
  }

  // ---- Sizes ----

  /** A leaf spans what it declares, cut to the container's columns, and is exactly as wide as those columns. */
  lemma LeafSize(d: Diagram, id: Id, columns: int, depth: nat)
    requires ValidDiagram(d) && depth <= MAX_NEST_DEPTH && id !in d.groups
    ensures var it := ItemOf(d, id, columns, depth);
            var declared := if id in d.spans then d.spans[id] else 1;
            && it.h == 40.0 && it.w == it.span as real * (d.cell + GAP) - GAP
            && (if declared < 1 || columns < 1 then it.span == 1
                else if declared <= columns then it.span == declared else it.span == columns)
  {
    SpanWidthInPitches(d, ItemOf(d, id, columns, depth).span);
  }

  lemma OneFewerIsTooFew(d: Diagram, width: real, n: int)
    requires ValidDiagram(d) && 1 <= n < ColumnsFor(d, width)
    ensures width > n as real * Pitch(d) - GAP
  {
    var q := (width + GAP) / Pitch(d);
    assert q * Pitch(d) == width + GAP;
    assert n as real < q;
    Positive(q - n as real, Pitch(d));
  }

  lemma Positive(a: real, b: real)
    requires a > 0.0 && b > 0.0
    ensures a * b > 0.0
  {
  }

  lemma PitchIs(d: Diagram)
    ensures Pitch(d) == d.cell + GAP
  {
  }

  /** Not the columns declared, or not wide enough. */
  predicate TooFew(d: Diagram, natural: real, declared: int, n: int) {
    n < declared || natural > n as real * (d.cell + GAP) - GAP
  }

  lemma FewestColumns(d: Diagram, natural: real, declared: int, columns: int, span: int)
    requires ValidDiagram(d) && span == AtLeastOne(MinInt(MaxInt(declared, ColumnsFor(d, natural)), columns))
    ensures 1 <= span && (span == 1 || span <= columns)
    ensures span < columns ==> declared <= span && natural <= span as real * (d.cell + GAP) - GAP
    ensures forall n {:trigger TooFew(d, natural, declared, n)} :: 1 <= n < span ==> TooFew(d, natural, declared, n)
  {
    PitchIs(d);
    ColumnsSuffice(d, natural);
    hide Pitch;
    if span < columns { ScaleUp(ColumnsFor(d, natural) as real, span as real, Pitch(d)); }
    hide ColumnsFor;
    forall n {:trigger TooFew(d, natural, declared, n)} | 1 <= n < span ensures TooFew(d, natural, declared, n) {
      if declared <= n { OneFewerIsTooFew(d, natural, n); }
    }
  }

  /** A composite spans as few columns as its declaration and its content allow, and is as wide as they are, or as its
  content where that needs more columns than there are. */
  lemma GroupIsSnug(d: Diagram, id: Id, columns: int, depth: nat)
    requires ValidDiagram(d) && depth <= MAX_NEST_DEPTH && id in d.groups
    ensures var g, it := d.groups[id], ItemOf(d, id, columns, depth);
            var inner := MeasureContainer(d, g.children, g.columns, depth + 1);
            var natural := Max(inner.w, g.labelWidth) + 28.0;
            && it.w == Max(it.span as real * (d.cell + GAP) - GAP, natural) && it.h == inner.h + 38.0
            && 1 <= it.span && (it.span == 1 || it.span <= columns)
            && (it.span < columns ==> g.span <= it.span && natural <= it.span as real * (d.cell + GAP) - GAP)
            && (forall n {:trigger TooFew(d, natural, g.span, n)} :: 1 <= n < it.span ==> TooFew(d, natural, g.span, n))
  {
    hide MeasureContainer, Pitch, ColumnsFor, SpanWidth, TooFew;
    var g, it := d.groups[id], ItemOf(d, id, columns, depth);
    var natural := NaturalWidth(g, MeasureContainer(d, g.children, g.columns, depth + 1));
    PitchIs(d);
    SpanWidthInPitches(d, it.span);
    FewestColumns(d, natural, g.span, columns, it.span);
  }

  // ---- A container of leaves ----

  ghost predicate UnitLeaves(d: Diagram, ids: seq<Id>) {
    forall k :: 0 <= k < |ids| ==> ids[k] !in d.groups && (ids[k] in d.spans ==> d.spans[ids[k]] == 1)
  }

  lemma UnitItems(d: Diagram, ids: seq<Id>, columns: int, depth: nat)
    requires ValidDiagram(d) && depth <= MAX_NEST_DEPTH && UnitLeaves(d, ids)
    ensures forall k :: 0 <= k < |ids| ==> Items(d, ids, columns, depth)[k] == Item(1, d.cell, 40.0)
  {
    hide Items;
    forall k | 0 <= k < |ids| ensures Items(d, ids, columns, depth)[k] == Item(1, d.cell, 40.0) {
      assert Items(d, ids, columns, depth)[k] == ItemOf(d, ids[k], columns, depth);
    }
  }

  lemma {:induction false} UnitRowY(items: seq<Item>, columns: int, cell: real, k: nat, r: nat)
    requires k < |items| && forall i :: 0 <= i < |items| ==> items[i] == Item(1, cell, 40.0)
    requires r <= k / AtLeastOne(columns)
    ensures RowY(items, Slots(items, columns, 0, 0), r) == r as real * 84.0
  {
    if r > 0 {
      hide Slots, RowHeight;
      UnitRowY(items, columns, cell, k, r - 1);
      UnitRowHeight(items, columns, cell, k, r - 1);
      assert r as real * 84.0 == (r - 1) as real * 84.0 + 84.0;
    }
  }

  lemma {:induction false} SameHeights(items: seq<Item>, slots: seq<Slot>, h: real, r: nat)
    requires |items| == |slots| && h >= 0.0 && forall i :: 0 <= i < |items| ==> items[i].h == h
    ensures RowHeight(items, slots, r) <= h
  {
    if items != [] { SameHeights(items[..|items| - 1], slots[..|items| - 1], h, r); }
  }

  lemma UnitRowHeight(items: seq<Item>, columns: int, cell: real, k: nat, r: nat)
    requires k < |items| && forall i :: 0 <= i < |items| ==> items[i] == Item(1, cell, 40.0)
    requires r < k / AtLeastOne(columns)
    ensures RowHeight(items, Slots(items, columns, 0, 0), r) == 40.0
  {
    hide Slots;
    var n, slots := AtLeastOne(columns), Slots(items, columns, 0, 0);
    var first := r * n;
    Multiples(k, n, r);
    UnitSlots(items, columns, first);
    DividesBy(first, n, r, 0);
    assert slots[first].row == r && items[first].h <= RowHeight(items, slots, r);
    hide RowHeight;
    SameHeights(items, slots, 40.0, r);
  }

  lemma Multiples(k: nat, n: int, r: int)
    requires n >= 1 && 0 <= r <= k / n
    ensures 0 <= r * n <= k
  {
    var d := k / n - r;
    assert d * n >= 0;
    assert k == (k / n) * n + k % n;
    assert (k / n) * n == d * n + r * n;
  }

  /** In a container of single-column leaves, the k-th stands in column k mod n and row k / n. */
  lemma UnitLeavesInGrid(d: Diagram, ids: seq<Id>, columns: int, ox: real, oy: real, depth: nat, k: nat)
    requires ValidDiagram(d) && depth <= MAX_NEST_DEPTH && UnitLeaves(d, ids) && k < |ids| && columns > 0
    ensures ChildBox(d, ids, columns, ox, oy, depth, k) ==
            Box(ox + (k % columns) as real * (d.cell + 44.0), oy + (k / columns) as real * 84.0, d.cell, 40.0)
  {
    hide Items, ItemOf, Slots, RowY;
    UnitItems(d, ids, columns, depth);
    var items := Items(d, ids, columns, depth);
    UnitSlots(items, columns, k);
    UnitRowY(items, columns, d.cell, k, k / columns);
  }
}
