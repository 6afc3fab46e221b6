/** Row-major placement of spanning items: the arithmetic one container of a block diagram is laid out with. */
module BlockGrid {
  import opened Wrappers

  const GAP := 44.0

  datatype Item = Item(span: int, w: real, h: real)

  datatype Slot = Slot(col: int, row: nat)

  datatype Box = Box(x: real, y: real, w: real, h: real)

  datatype Extent = Extent(w: real, h: real)

  // ---- Slots ----

  /** Where the next item goes: on in the row, or wrapped when it does not fit the rest of it. */
  function Fit(columns: int, row: nat, col: int, span: int): Slot {
    if col > 0 && col + span > columns then Slot(0, row + 1) else Slot(col, row)
  }

  function Slots(items: seq<Item>, columns: int, row: nat, col: int): (r: seq<Slot>)
    ensures |r| == |items|
  {
    if items == [] then []
    else
      var s := Fit(columns, row, col, items[0].span);
      [s] + Slots(items[1..], columns, s.row, s.col + items[0].span)
  }

  /** An item as wide as the container starts its row. */
  lemma {:induction false} SlotFits(items: seq<Item>, columns: int, row: nat, col: int, i: nat)
    requires i < |items| && col >= 0 && forall k :: 0 <= k < |items| ==> items[k].span >= 1
    ensures var s := Slots(items, columns, row, col)[i];
            s.col >= 0 && s.row >= row && (s.row == row ==> s.col >= col) &&
                (s.col > 0 ==> s.col + items[i].span <= columns)
  {
    if i > 0 {
      var s := Fit(columns, row, col, items[0].span);
      SlotFits(items[1..], columns, s.row, s.col + items[0].span, i - 1);
    }
  }

  /** A later item is further right in the row, or in a later row. */
  lemma {:induction false} SlotsInOrder(items: seq<Item>, columns: int, row: nat, col: int, i: nat, j: nat)
    requires i < j < |items| && col >= 0 && forall k :: 0 <= k < |items| ==> items[k].span >= 1
    ensures var slots := Slots(items, columns, row, col);
            slots[i].row < slots[j].row ||
            (slots[i].row == slots[j].row && slots[i].col + items[i].span <= slots[j].col)
  {
    var s := Fit(columns, row, col, items[0].span);
    if i > 0 {
      SlotsInOrder(items[1..], columns, s.row, s.col + items[0].span, i - 1, j - 1);
    } else {
      SlotFits(items[1..], columns, s.row, s.col + items[0].span, j - 1);
    }
  }

  // ---- Rows ----

  function RowHeight(items: seq<Item>, slots: seq<Slot>, r: nat): (h: real)
    requires |items| == |slots|
    ensures h >= 0.0
    ensures forall k :: 0 <= k < |items| && slots[k].row == r ==> items[k].h <= h
  {
    if items == [] then 0.0
    else
      var n := |items| - 1;
      var rest := RowHeight(items[..n], slots[..n], r);
      if slots[n].row == r then Max(rest, items[n].h) else rest
  }

  /** The top of row `r`: the heights of the rows above it, a gap below each. */
  function RowY(items: seq<Item>, slots: seq<Slot>, r: nat): (y: real)
    requires |items| == |slots|
    ensures y >= 0.0
  {
    if r == 0 then 0.0 else RowY(items, slots, r - 1) + RowHeight(items, slots, r - 1) + GAP
  }

  lemma {:induction false} RowsStack(items: seq<Item>, slots: seq<Slot>, a: nat, b: nat)
    requires |items| == |slots| && a < b
    ensures RowY(items, slots, a) + RowHeight(items, slots, a) + GAP <= RowY(items, slots, b)
  {
    if a + 1 < b { RowsStack(items, slots, a, b - 1); }
  }

  function RowCount(slots: seq<Slot>): (n: nat)
    ensures forall k :: 0 <= k < |slots| ==> slots[k].row < n
  {
    if slots == [] then 0
    else
      var rest := RowCount(slots[..|slots| - 1]);
      if slots[|slots| - 1].row + 1 > rest then slots[|slots| - 1].row + 1 else rest
  }

  // ---- Cells ----

  function CellX(slot: Slot, pitch: real): real { slot.col as real * pitch }

  function Width(items: seq<Item>, slots: seq<Slot>, pitch: real): (w: real)
    requires |items| == |slots|
    ensures w >= 0.0
    ensures forall k :: 0 <= k < |items| ==> CellX(slots[k], pitch) + items[k].w <= w
  {
    if items == [] then 0.0
    else
      var n := |items| - 1;
      Max(Width(items[..n], slots[..n], pitch), CellX(slots[n], pitch) + items[n].w)
  }

  function Height(items: seq<Item>, slots: seq<Slot>): real
    requires |items| == |slots|
  {
    Max(0.0, RowY(items, slots, RowCount(slots)) - GAP)
  }

  /** The box of item `k`, with the content's corner at the origin. */
  function CellBox(items: seq<Item>, columns: int, pitch: real, k: nat): Box
    requires k < |items|
  {
    var slots := Slots(items, columns, 0, 0);
    Box(CellX(slots[k], pitch), RowY(items, slots, slots[k].row), items[k].w, items[k].h)
  }

  function Content(items: seq<Item>, columns: int, pitch: real): Extent {
    var slots := Slots(items, columns, 0, 0);
    Extent(Width(items, slots, pitch), Height(items, slots))
  }

  /** Three passes over the items: slots, rows, cells. */
  method AutoPlace(items: seq<Item>, columns: int, pitch: real) returns (cells: seq<(real, real)>, extent: Extent)
    ensures |cells| == |items| && extent == Content(items, columns, pitch)
    ensures forall k :: 0 <= k < |items| ==>
              cells[k] == (CellBox(items, columns, pitch, k).x, CellBox(items, columns, pitch, k).y)
  {
    hide Slots, RowY, RowHeight, RowCount, Width, CellX;
    var slots := PlaceSlots(items, columns);
    var rowH := RowHeights(items, slots);
    var rowY, y := RowTops(items, slots, rowH);
    var width;
    cells, width := PlaceCells(items, slots, rowY, pitch);
    extent := Extent(width, Max(0.0, y - GAP));
  }

  lemma WidthSnoc(items: seq<Item>, slots: seq<Slot>, pitch: real, i: nat)
    requires |items| == |slots| && i < |items|
    ensures Width(items[..i + 1], slots[..i + 1], pitch) ==
            Max(Width(items[..i], slots[..i], pitch), CellX(slots[i], pitch) + items[i].w)
  {
    hide CellX;
    assert items[..i + 1][..i] == items[..i] && slots[..i + 1][..i] == slots[..i];
  }

  method PlaceCells(items: seq<Item>, slots: seq<Slot>, rowY: seq<real>, pitch: real)
    returns (cells: seq<(real, real)>, width: real)
    requires |items| == |slots| && |rowY| == RowCount(slots)
    requires forall r :: 0 <= r < |rowY| ==> rowY[r] == RowY(items, slots, r)
    ensures |cells| == |items| && width == Width(items, slots, pitch)
    ensures forall k :: 0 <= k < |items| ==> cells[k] == (CellX(slots[k], pitch), RowY(items, slots, slots[k].row))
  {
    cells, width := [], 0.0;
    assert Width(items[..0], slots[..0], pitch) == 0.0;
    hide RowY, Width, CellX, RowCount;
    for i := 0 to |items|
      invariant |cells| == i && width == Width(items[..i], slots[..i], pitch)
      invariant forall k :: 0 <= k < i ==> cells[k] == (CellX(slots[k], pitch), RowY(items, slots, slots[k].row))
    {
      WidthSnoc(items, slots, pitch, i);
      var x := CellX(slots[i], pitch);
      cells := cells + [(x, rowY[slots[i].row])];
      width := Max(width, x + items[i].w);
    }
    assert items[..|items|] == items && slots[..|items|] == slots;
  }

  lemma SlotsStep(items: seq<Item>, columns: int, i: nat, row: nat, col: int, done: seq<Slot>)
    requires i < |items|
    ensures var s := Fit(columns, row, col, items[i].span);
            done + Slots(items[i..], columns, row, col) ==
            done + [s] + Slots(items[i + 1..], columns, s.row, s.col + items[i].span)
  {
    assert items[i..][1..] == items[i + 1..];
    var s := Fit(columns, row, col, items[i].span);
    var rest := Slots(items[i + 1..], columns, s.row, s.col + items[i].span);
    assert done + ([s] + rest) == done + [s] + rest;
  }

  method PlaceSlots(items: seq<Item>, columns: int) returns (slots: seq<Slot>)
    ensures slots == Slots(items, columns, 0, 0)
  {
    slots := [];
    var row: nat, col := 0, 0;
    assert items[0..] == items;
    for i := 0 to |items|
      invariant Slots(items, columns, 0, 0) == slots + Slots(items[i..], columns, row, col)
    {
      hide Slots;
      SlotsStep(items, columns, i, row, col, slots);
      if col > 0 && col + items[i].span > columns {
        row := row + 1;
        col := 0;
      }
      slots := slots + [Slot(col, row)];
      col := col + items[i].span;
    }
  }

  method RowHeights(items: seq<Item>, slots: seq<Slot>) returns (rowH: seq<real>)
    requires |items| == |slots|
    ensures |rowH| == RowCount(slots)
    ensures forall r :: 0 <= r < |rowH| ==> rowH[r] == RowHeight(items, slots, r)
  {
    rowH := [];
    for i := 0 to |items|
      invariant |rowH| == RowCount(slots[..i])
      invariant forall r :: 0 <= r < |rowH| ==> rowH[r] == RowHeight(items[..i], slots[..i], r)
      invariant forall r: nat :: r >= |rowH| ==> RowHeight(items[..i], slots[..i], r) == 0.0
    {
      assert items[..i + 1][..i] == items[..i] && slots[..i + 1][..i] == slots[..i];
      var row := slots[i].row;
      if row >= |rowH| {
        rowH := rowH + seq(row + 1 - |rowH|, _ => 0.0);
      }
      rowH := rowH[row := Max(rowH[row], items[i].h)];
    }
    assert items[..|items|] == items && slots[..|items|] == slots;
  }

  method RowTops(items: seq<Item>, slots: seq<Slot>, rowH: seq<real>) returns (rowY: seq<real>, y: real)
    requires |items| == |slots| && |rowH| == RowCount(slots)
    requires forall r :: 0 <= r < |rowH| ==> rowH[r] == RowHeight(items, slots, r)
    ensures |rowY| == |rowH| && y == RowY(items, slots, |rowH|)
    ensures forall r :: 0 <= r < |rowY| ==> rowY[r] == RowY(items, slots, r)
  {
    rowY, y := [], 0.0;
    for r := 0 to |rowH|
      invariant |rowY| == r && y == RowY(items, slots, r)
      invariant forall q :: 0 <= q < r ==> rowY[q] == RowY(items, slots, q)
    {
      rowY := rowY + [y];
      y := y + rowH[r] + GAP;
    }
  }

  // ---- Siblings keep their distance ----

  predicate Apart(a: Box, b: Box) {
    a.x + a.w + GAP <= b.x || b.x + b.w + GAP <= a.x || a.y + a.h + GAP <= b.y || b.y + b.h + GAP <= a.y
  }

  /** The item is no wider than the columns it spans, or takes a row of its own. */
  predicate FitsSpan(it: Item, columns: int, pitch: real) {
    it.span >= 1 && (it.w <= it.span as real * pitch - GAP || it.span >= columns)
  }

  ghost predicate Fitted(items: seq<Item>, columns: int, pitch: real) {
    forall k :: 0 <= k < |items| ==> FitsSpan(items[k], columns, pitch)
  }

  lemma ColumnsApart(a: int, span: int, w: real, b: int, pitch: real)
    requires a + span <= b && pitch >= 0.0 && w <= span as real * pitch - GAP
    ensures a as real * pitch + w + GAP <= b as real * pitch
  {
    Spread(a, span, pitch);
    Spread(a + span, b - a - span, pitch);
    assert (b - a - span) as real * pitch >= 0.0;
  }

  lemma Spread(a: int, b: int, pitch: real)
    ensures (a + b) as real * pitch == a as real * pitch + b as real * pitch
  {
    assert (a + b) as real == a as real + b as real;
  }

  lemma SpansPositive(items: seq<Item>, columns: int, pitch: real)
    requires Fitted(items, columns, pitch)
    ensures forall k :: 0 <= k < |items| ==> items[k].span >= 1
  {
    forall k | 0 <= k < |items| ensures items[k].span >= 1 { assert FitsSpan(items[k], columns, pitch); }
  }

  /** Items that share a row span less than the whole of it. */
  lemma RowMatesFit(items: seq<Item>, columns: int, pitch: real, i: nat, j: nat)
    requires i < j < |items| && Fitted(items, columns, pitch)
    requires Slots(items, columns, 0, 0)[i].row == Slots(items, columns, 0, 0)[j].row
    ensures Slots(items, columns, 0, 0)[i].col + items[i].span <= Slots(items, columns, 0, 0)[j].col
    ensures items[i].w <= items[i].span as real * pitch - GAP
  {
    hide Slots;
    SpansPositive(items, columns, pitch);
    SlotsInOrder(items, columns, 0, 0, i, j);
    SlotFits(items, columns, 0, 0, i);
    SlotFits(items, columns, 0, 0, j);
    assert FitsSpan(items[j], columns, pitch) && FitsSpan(items[i], columns, pitch);
  }

  /** Two siblings are at least the gap apart, one beside or above the other. */
  lemma SiblingsApart(items: seq<Item>, columns: int, pitch: real, i: nat, j: nat)
    requires i < j < |items| && pitch >= 0.0 && Fitted(items, columns, pitch)
    ensures Apart(CellBox(items, columns, pitch, i), CellBox(items, columns, pitch, j))
  {
    hide Slots, RowY, RowHeight, FitsSpan;
    var slots := Slots(items, columns, 0, 0);
    SpansPositive(items, columns, pitch);
    SlotsInOrder(items, columns, 0, 0, i, j);
    if slots[i].row < slots[j].row {
      RowsStack(items, slots, slots[i].row, slots[j].row);
      assert items[i].h <= RowHeight(items, slots, slots[i].row);
    } else {
      RowMatesFit(items, columns, pitch, i, j);
      ColumnsApart(slots[i].col, items[i].span, items[i].w, slots[j].col, pitch);
    }
  }

  /** Every box lies inside the content's extent. */
  lemma CellInside(items: seq<Item>, columns: int, pitch: real, k: nat)
    requires k < |items| && pitch >= 0.0 && Fitted(items, columns, pitch)
    ensures var b := CellBox(items, columns, pitch, k);
            var e := Content(items, columns, pitch);
            0.0 <= b.x && b.x + b.w <= e.w && 0.0 <= b.y && b.y + b.h <= e.h
  {
    var slots := Slots(items, columns, 0, 0);
    SpansPositive(items, columns, pitch);
    SlotFits(items, columns, 0, 0, k);
    RowsStack(items, slots, slots[k].row, RowCount(slots));
  }
}
