/** A grid whose columns are as wide as their widest item and whose rows are as tall as their tallest. */
module VariableGrid {
  import opened Wrappers

  datatype Size = Size(w: real, h: real)

  datatype Cell = Cell(x: real, y: real)

  datatype Grid = Grid(cells: seq<Cell>, width: real, height: real)

  function AtLeastOne(n: int): (r: nat)
    ensures r >= 1
  {
    if n < 1 then 1 else n
  }

  // ---- Where item `i` goes ----

  function Col(i: nat, cols: nat): (c: nat)
    requires cols > 0
    ensures c < cols && c <= i
  {
    i % cols
  }

  function Row(i: nat, cols: nat): (r: nat)
    requires cols > 0
  {
    i / cols
  }

  /** The rows `n` items take: as many as it takes to hold the last of them, and at least one. */
  function RowsFor(n: nat, cols: nat): (r: nat)
    requires cols > 0
    ensures r >= 1
  {
    if n == 0 then 1 else Row(n - 1, cols) + 1
  }

  lemma RowInRange(i: nat, n: nat, cols: nat)
    requires cols > 0 && i < n
    ensures Row(i, cols) < RowsFor(n, cols)
  {
    RowMonotone(i, n - 1, cols);
  }

  lemma {:induction false} RowMonotone(a: nat, b: nat, cols: nat)
    requires cols > 0 && a <= b
    ensures Row(a, cols) <= Row(b, cols)
    decreases b - a
  {
    if a < b {
      RowMonotone(a, b - 1, cols);
      NextRow(b - 1, cols);
    }
  }

  lemma NextRow(b: nat, cols: nat)
    requires cols > 0
    ensures Row(b, cols) <= Row(b + 1, cols)
  {
    var q, r := b / cols, b % cols;
    assert b == q * cols + r;
    var q', r' := (b + 1) / cols, (b + 1) % cols;
    assert b + 1 == q' * cols + r';
    if q' < q {
      assert (q - q') * cols == q * cols - q' * cols;
      AtLeastOnce(q - q', cols);
    }
  }

  lemma AtLeastOnce(k: int, m: int)
    requires k >= 1 && m >= 0
    ensures k * m >= m
  {
    assert k * m - m == (k - 1) * m;
  }

  /** Different items have different places. */
  lemma PlacesDiffer(i: nat, j: nat, cols: nat)
    requires cols > 0 && i != j
    ensures Col(i, cols) != Col(j, cols) || Row(i, cols) != Row(j, cols)
  {
    assert i == (i / cols) * cols + i % cols;
    assert j == (j / cols) * cols + j % cols;
  }

  // ---- Column widths, row heights and their sums ----

  /** The widest of the first `n` items that fall into column `c`. */
  function ColWidth(sizes: seq<Size>, cols: nat, c: nat, n: nat): (w: real)
    requires cols > 0 && n <= |sizes|
    ensures w >= 0.0
    ensures forall i :: 0 <= i < n && Col(i, cols) == c ==> sizes[i].w <= w
  {
    if n == 0 then 0.0
    else
      var rest := ColWidth(sizes, cols, c, n - 1);
      if Col(n - 1, cols) == c then Max(rest, sizes[n - 1].w) else rest
  }

  function RowHeight(sizes: seq<Size>, cols: nat, r: nat, n: nat): (h: real)
    requires cols > 0 && n <= |sizes|
    ensures h >= 0.0
    ensures forall i :: 0 <= i < n && Row(i, cols) == r ==> sizes[i].h <= h
  {
    if n == 0 then 0.0
    else
      var rest := RowHeight(sizes, cols, r, n - 1);
      if Row(n - 1, cols) == r then Max(rest, sizes[n - 1].h) else rest
  }

  function ColX(sizes: seq<Size>, cols: nat, gap: real, c: nat): real
    requires cols > 0
  {
    if c == 0 then 0.0 else ColX(sizes, cols, gap, c - 1) + ColWidth(sizes, cols, c - 1, |sizes|) + gap
  }

  function RowY(sizes: seq<Size>, cols: nat, gap: real, r: nat): real
    requires cols > 0
  {
    if r == 0 then 0.0 else RowY(sizes, cols, gap, r - 1) + RowHeight(sizes, cols, r - 1, |sizes|) + gap
  }

  function CellOf(sizes: seq<Size>, cols: nat, gap: real, i: nat): Cell
    requires cols > 0
  {
    Cell(ColX(sizes, cols, gap, Col(i, cols)), RowY(sizes, cols, gap, Row(i, cols)))
  }

  function UsedCols(sizes: seq<Size>, cols: nat): (n: nat)
    requires cols > 0
    ensures n >= 1
  {
    var count := AtLeastOne(|sizes|);
    if cols <= count then cols else count
  }

  /** The grid as a function of the sizes. */
  function GridOf(sizes: seq<Size>, columns: int, gap: real): (g: Grid)
    ensures |g.cells| == |sizes|
  {
    var cols := AtLeastOne(columns);
    Grid(seq(|sizes|, i requires 0 <= i < |sizes| => CellOf(sizes, cols, gap, i)),
         ColX(sizes, cols, gap, UsedCols(sizes, cols)) - gap, RowY(sizes, cols, gap, RowsFor(|sizes|, cols)) - gap)
  }

  /** The grid as it is computed: widths and heights into arrays, prefix sums, cells. */
  method ComputeGrid(sizes: seq<Size>, columns: int, gap: real) returns (g: Grid)
    ensures g == GridOf(sizes, columns, gap)
  {
    var cols := AtLeastOne(columns);
    var rows := RowsFor(|sizes|, cols);
    var colW, rowH := Extents(sizes, cols, rows);
    var used := UsedCols(sizes, cols);
    UsedInRange(sizes, cols);
    hide ColX, RowY, ColWidth, RowHeight, Col, Row, UsedCols, RowsFor;
    var width, height := Totals(sizes, cols, rows, used, gap, colW, rowH);
    var colX, x := ColumnStarts(sizes, cols, gap, colW);
    var rowY, y := RowStarts(sizes, cols, rows, gap, rowH);
    var cells := [];
    for i := 0 to |sizes|
      invariant |cells| == i && forall k :: 0 <= k < i ==> cells[k] == CellOf(sizes, cols, gap, k)
    {
      RowInRange(i, |sizes|, cols);
      cells := cells + [Cell(colX[Col(i, cols)], rowY[Row(i, cols)])];
    }
    g := Grid(cells, width, height);
    assert g.cells == GridOf(sizes, columns, gap).cells;
  }

  function TotalWidth(sizes: seq<Size>, cols: nat, n: nat): real
    requires cols > 0
  {
    if n == 0 then 0.0 else TotalWidth(sizes, cols, n - 1) + ColWidth(sizes, cols, n - 1, |sizes|)
  }

  function TotalHeight(sizes: seq<Size>, cols: nat, n: nat): real
    requires cols > 0
  {
    if n == 0 then 0.0 else TotalHeight(sizes, cols, n - 1) + RowHeight(sizes, cols, n - 1, |sizes|)
  }

  /** A column starts past the widths before it and as many gaps; so do rows. */
  lemma {:induction false} SumsAreStarts(sizes: seq<Size>, cols: nat, gap: real, n: nat)
    requires cols > 0
    ensures ColX(sizes, cols, gap, n) == TotalWidth(sizes, cols, n) + n as real * gap
    ensures RowY(sizes, cols, gap, n) == TotalHeight(sizes, cols, n) + n as real * gap
    ensures n as real * gap == (n - 1) as real * gap + gap
  {
    hide ColWidth, RowHeight;
    assert n as real * gap == (n - 1) as real * gap + gap by { assert n as real == (n - 1) as real + 1.0; }
    if n > 0 { SumsAreStarts(sizes, cols, gap, n - 1); }
  }

  method SumWidths(sizes: seq<Size>, cols: nat, colW: array<real>, n: nat) returns (sum: real)
    requires cols > 0 && n <= colW.Length == cols
    requires forall c :: 0 <= c < cols ==> colW[c] == ColWidth(sizes, cols, c, |sizes|)
    ensures sum == TotalWidth(sizes, cols, n)
  {
    sum := 0.0;
    for c := 0 to n
      invariant sum == TotalWidth(sizes, cols, c)
    {
      sum := sum + colW[c];
    }
  }

  method SumHeights(sizes: seq<Size>, cols: nat, rowH: array<real>, n: nat) returns (sum: real)
    requires cols > 0 && n == rowH.Length
    requires forall r :: 0 <= r < n ==> rowH[r] == RowHeight(sizes, cols, r, |sizes|)
    ensures sum == TotalHeight(sizes, cols, n)
  {
    sum := 0.0;
    for r := 0 to n
      invariant sum == TotalHeight(sizes, cols, r)
    {
      sum := sum + rowH[r];
    }
  }

  /** The content's width and height: what is used, and the gaps between. */
  method Totals(sizes: seq<Size>, cols: nat, rows: nat, used: nat, gap: real, colW: array<real>, rowH: array<real>)
    returns (width: real, height: real)
    requires 0 < used <= cols == colW.Length && rows == rowH.Length
    requires forall c :: 0 <= c < cols ==> colW[c] == ColWidth(sizes, cols, c, |sizes|)
    requires forall r :: 0 <= r < rows ==> rowH[r] == RowHeight(sizes, cols, r, |sizes|)
    ensures width == ColX(sizes, cols, gap, used) - gap && height == RowY(sizes, cols, gap, rows) - gap
  {
    hide ColX, RowY, TotalWidth, TotalHeight, ColWidth, RowHeight;
    var widths := SumWidths(sizes, cols, colW, used);
    var heights := SumHeights(sizes, cols, rowH, rows);
    SumsAreStarts(sizes, cols, gap, used);
    SumsAreStarts(sizes, cols, gap, rows);
    width, height := widths + (used - 1) as real * gap, heights + (rows - 1) as real * gap;
  }

  lemma UsedInRange(sizes: seq<Size>, cols: nat)
    requires cols > 0
    ensures UsedCols(sizes, cols) <= cols
  {
  }

  method Extents(sizes: seq<Size>, cols: nat, rows: nat) returns (colW: array<real>, rowH: array<real>)
    requires cols > 0 && rows == RowsFor(|sizes|, cols)
    ensures colW.Length == cols && rowH.Length == rows
    ensures forall c :: 0 <= c < cols ==> colW[c] == ColWidth(sizes, cols, c, |sizes|)
    ensures forall r :: 0 <= r < rows ==> rowH[r] == RowHeight(sizes, cols, r, |sizes|)
  {
    colW := new real[cols](_ => 0.0);
    rowH := new real[rows](_ => 0.0);
    hide Col, Row, RowsFor;
    for i := 0 to |sizes|
      invariant forall c :: 0 <= c < cols ==> colW[c] == ColWidth(sizes, cols, c, i)
      invariant forall r :: 0 <= r < rows ==> rowH[r] == RowHeight(sizes, cols, r, i)
    {
      RowInRange(i, |sizes|, cols);
      var c, r := Col(i, cols), Row(i, cols);
      colW[c] := Max(colW[c], sizes[i].w);
      rowH[r] := Max(rowH[r], sizes[i].h);
    }
  }

  method ColumnStarts(sizes: seq<Size>, cols: nat, gap: real, colW: array<real>) returns (colX: seq<real>, x: real)
    requires cols > 0 && colW.Length == cols
    requires forall c :: 0 <= c < cols ==> colW[c] == ColWidth(sizes, cols, c, |sizes|)
    ensures |colX| == cols && x == ColX(sizes, cols, gap, cols)
    ensures forall c :: 0 <= c < cols ==> colX[c] == ColX(sizes, cols, gap, c)
  {
    colX, x := [], 0.0;
    hide ColWidth;
    for c := 0 to cols
      invariant |colX| == c && x == ColX(sizes, cols, gap, c)
      invariant forall k :: 0 <= k < c ==> colX[k] == ColX(sizes, cols, gap, k)
    {
      colX := colX + [x];
      x := x + colW[c] + gap;
    }
  }

  method RowStarts(sizes: seq<Size>, cols: nat, rows: nat, gap: real, rowH: array<real>)
    returns (rowY: seq<real>, y: real)
    requires cols > 0 && rowH.Length == rows
    requires forall r :: 0 <= r < rows ==> rowH[r] == RowHeight(sizes, cols, r, |sizes|)
    ensures |rowY| == rows && y == RowY(sizes, cols, gap, rows)
    ensures forall r :: 0 <= r < rows ==> rowY[r] == RowY(sizes, cols, gap, r)
  {
    rowY, y := [], 0.0;
    hide RowHeight;
    for r := 0 to rows
      invariant |rowY| == r && y == RowY(sizes, cols, gap, r)
      invariant forall k :: 0 <= k < r ==> rowY[k] == RowY(sizes, cols, gap, k)
    {
      rowY := rowY + [y];
      y := y + rowH[r] + gap;
    }
  }

  // ---- Items keep apart and inside ----

  lemma {:induction false} ColumnsStack(sizes: seq<Size>, cols: nat, gap: real, a: nat, b: nat)
    requires cols > 0 && gap >= 0.0 && a < b
    ensures ColX(sizes, cols, gap, a) + ColWidth(sizes, cols, a, |sizes|) + gap <= ColX(sizes, cols, gap, b)
  {
    if a + 1 < b { ColumnsStack(sizes, cols, gap, a, b - 1); }
  }

  lemma {:induction false} RowsStack(sizes: seq<Size>, cols: nat, gap: real, a: nat, b: nat)
    requires cols > 0 && gap >= 0.0 && a < b
    ensures RowY(sizes, cols, gap, a) + RowHeight(sizes, cols, a, |sizes|) + gap <= RowY(sizes, cols, gap, b)
  {
    if a + 1 < b { RowsStack(sizes, cols, gap, a, b - 1); }
  }

  /** Two items are the gap apart, in different columns or in different rows. */
  lemma ItemsApart(sizes: seq<Size>, columns: int, gap: real, i: nat, j: nat)
    requires gap >= 0.0 && i < |sizes| && j < |sizes| && i != j
    ensures var a, b := GridOf(sizes, columns, gap).cells[i], GridOf(sizes, columns, gap).cells[j];
            a.x + sizes[i].w + gap <= b.x || b.x + sizes[j].w + gap <= a.x ||
            a.y + sizes[i].h + gap <= b.y || b.y + sizes[j].h + gap <= a.y
  {
    var cols := AtLeastOne(columns);
    PlacesDiffer(i, j, cols);
    hide Col, Row, ColX, RowY, ColWidth, RowHeight;
    if Col(i, cols) != Col(j, cols) {
      var a, b := if Col(i, cols) < Col(j, cols) then i else j, if Col(i, cols) < Col(j, cols) then j else i;
      ColumnsStack(sizes, cols, gap, Col(a, cols), Col(b, cols));
      assert sizes[a].w <= ColWidth(sizes, cols, Col(a, cols), |sizes|);
    } else {
      var a, b := if Row(i, cols) < Row(j, cols) then i else j, if Row(i, cols) < Row(j, cols) then j else i;
      RowsStack(sizes, cols, gap, Row(a, cols), Row(b, cols));
      assert sizes[a].h <= RowHeight(sizes, cols, Row(a, cols), |sizes|);
    }
  }

  lemma {:induction false} StartsPositive(sizes: seq<Size>, cols: nat, gap: real, k: nat)
    requires cols > 0 && gap >= 0.0
    ensures ColX(sizes, cols, gap, k) >= 0.0 && RowY(sizes, cols, gap, k) >= 0.0
  {
    if k > 0 { StartsPositive(sizes, cols, gap, k - 1); }
  }

  /** Every item lies inside the grid. */
  lemma ItemInside(sizes: seq<Size>, columns: int, gap: real, i: nat)
    requires gap >= 0.0 && i < |sizes|
    ensures var g := GridOf(sizes, columns, gap);
            0.0 <= g.cells[i].x && g.cells[i].x + sizes[i].w <= g.width &&
            0.0 <= g.cells[i].y && g.cells[i].y + sizes[i].h <= g.height
  {
    var cols := AtLeastOne(columns);
    assert Col(i, cols) < UsedCols(sizes, cols);
    RowInRange(i, |sizes|, cols);
    hide Col, Row, ColX, RowY, ColWidth, RowHeight, UsedCols, RowsFor;
    StartsPositive(sizes, cols, gap, Col(i, cols));
    StartsPositive(sizes, cols, gap, Row(i, cols));
    ColumnsStack(sizes, cols, gap, Col(i, cols), UsedCols(sizes, cols));
    RowsStack(sizes, cols, gap, Row(i, cols), RowsFor(|sizes|, cols));
    assert sizes[i].w <= ColWidth(sizes, cols, Col(i, cols), |sizes|);
    assert sizes[i].h <= RowHeight(sizes, cols, Row(i, cols), |sizes|);
  }

  // ---- Columns and rows stand close ----

  ghost predicate NoNegatives(sizes: seq<Size>) {
    forall i :: 0 <= i < |sizes| ==> sizes[i].w >= 0.0 && sizes[i].h >= 0.0
  }

  lemma {:induction false} Widest(sizes: seq<Size>, cols: nat, c: nat, n: nat, i: nat) returns (m: nat)
    requires cols > 0 && i < n <= |sizes| && Col(i, cols) == c && NoNegatives(sizes)
    ensures m < n && Col(m, cols) == c && sizes[m].w == ColWidth(sizes, cols, c, n)
  {
    hide Col;
    m := n - 1;
    if exists j :: 0 <= j < n - 1 && Col(j, cols) == c {
      var j :| 0 <= j < n - 1 && Col(j, cols) == c;
      var w := Widest(sizes, cols, c, n - 1, j);
      if Col(n - 1, cols) != c || sizes[w].w > sizes[n - 1].w { m := w; }
    } else {
      NoneInColumn(sizes, cols, c, n - 1);
    }
  }

  lemma {:induction false} NoneInColumn(sizes: seq<Size>, cols: nat, c: nat, n: nat)
    requires cols > 0 && n <= |sizes| && forall j :: 0 <= j < n ==> Col(j, cols) != c
    ensures ColWidth(sizes, cols, c, n) == 0.0
  {
    if n > 0 { NoneInColumn(sizes, cols, c, n - 1); }
  }

  lemma {:induction false} Tallest(sizes: seq<Size>, cols: nat, r: nat, n: nat, i: nat) returns (m: nat)
    requires cols > 0 && i < n <= |sizes| && Row(i, cols) == r && NoNegatives(sizes)
    ensures m < n && Row(m, cols) == r && sizes[m].h == RowHeight(sizes, cols, r, n)
  {
    hide Row;
    m := n - 1;
    if exists j :: 0 <= j < n - 1 && Row(j, cols) == r {
      var j :| 0 <= j < n - 1 && Row(j, cols) == r;
      var t := Tallest(sizes, cols, r, n - 1, j);
      if Row(n - 1, cols) != r || sizes[t].h > sizes[n - 1].h { m := t; }
    } else {
      NoneInRow(sizes, cols, r, n - 1);
    }
  }

  lemma {:induction false} NoneInRow(sizes: seq<Size>, cols: nat, r: nat, n: nat)
    requires cols > 0 && n <= |sizes| && forall j :: 0 <= j < n ==> Row(j, cols) != r
    ensures RowHeight(sizes, cols, r, n) == 0.0
  {
    if n > 0 { NoneInRow(sizes, cols, r, n - 1); }
  }

  /** Item `i` stands in column i mod n and row i / n: it shares its left border with its column and its top with its
  row, and the first column and row start at the origin. */
  lemma ItemsAlign(sizes: seq<Size>, columns: int, gap: real, i: nat, j: nat)
    requires columns > 0 && i < |sizes| && j < |sizes|
    ensures var cells := GridOf(sizes, columns, gap).cells;
            && (i % columns == j % columns ==> cells[i].x == cells[j].x) && (i % columns == 0 ==> cells[i].x == 0.0)
            && (i / columns == j / columns ==> cells[i].y == cells[j].y) && (i < columns ==> cells[i].y == 0.0)
  {
    if i < columns { DividesBy(i, columns, 0, i); }
  }

  /** The item to the right of item `i` starts the gap behind the widest item of `i`'s column. */
  lemma ColumnsTouch(sizes: seq<Size>, columns: int, gap: real, i: nat) returns (m: nat)
    requires columns > 0 && NoNegatives(sizes) && i + 1 < |sizes| && (i + 1) % columns != 0
    ensures m < |sizes| && m % columns == i % columns
    ensures forall k :: 0 <= k < |sizes| && k % columns == i % columns ==> sizes[k].w <= sizes[m].w
    ensures var cells := GridOf(sizes, columns, gap).cells; cells[i + 1].x == cells[i].x + sizes[m].w + gap
  {
    m := Widest(sizes, columns, Col(i, columns), |sizes|, i);
    NextInRow(i, columns);
    assert forall k :: 0 <= k < |sizes| && k % columns == i % columns ==> Col(k, columns) == Col(i, columns);
  }

  lemma NextInRow(i: nat, columns: nat)
    requires columns > 0 && (i + 1) % columns != 0
    ensures (i + 1) % columns == i % columns + 1
  {
    var q, r := i / columns, i % columns;
    assert i == q * columns + r;
    if r + 1 < columns {
      DividesBy(i + 1, columns, q, r + 1);
    } else {
      assert i + 1 == (q + 1) * columns;
      DividesBy(i + 1, columns, q + 1, 0);
    }
  }

  /** The item below item `i` starts the gap below the tallest item of `i`'s row. */
  lemma RowsTouch(sizes: seq<Size>, columns: int, gap: real, i: nat) returns (m: nat)
    requires columns > 0 && NoNegatives(sizes) && i + columns < |sizes|
    ensures m < |sizes| && m / columns == i / columns
    ensures forall k :: 0 <= k < |sizes| && k / columns == i / columns ==> sizes[k].h <= sizes[m].h
    ensures var cells := GridOf(sizes, columns, gap).cells; cells[i + columns].y == cells[i].y + sizes[m].h + gap
  {
    m := Tallest(sizes, columns, Row(i, columns), |sizes|, i);
    var q, r := i / columns, i % columns;
    assert i == q * columns + r;
    assert i + columns == (q + 1) * columns + r;
    DividesBy(i + columns, columns, q + 1, r);
    assert forall k :: 0 <= k < |sizes| && k / columns == i / columns ==> Row(k, columns) == Row(i, columns);
  }

  /** The grid reaches no further than its items, if there is one for every column: some item ends at its right border,
  and some at its bottom. */
  lemma GridIsSnug(sizes: seq<Size>, columns: int, gap: real) returns (a: nat, b: nat)
    requires columns > 0 && NoNegatives(sizes) && sizes != []
    ensures a < |sizes| && b < |sizes|
    ensures var g := GridOf(sizes, columns, gap);
            g.cells[a].x + sizes[a].w == g.width && g.cells[b].y + sizes[b].h == g.height
  {
    var last := UsedCols(sizes, columns) - 1;
    DividesBy(last, columns, 0, last);
    a := Widest(sizes, columns, last, |sizes|, last);
    b := Tallest(sizes, columns, Row(|sizes| - 1, columns), |sizes|, |sizes| - 1);
    hide ColWidth, RowHeight;
    assert ColX(sizes, columns, gap, last + 1) == ColX(sizes, columns, gap, last) +
      ColWidth(sizes, columns, last, |sizes|) + gap;
  }
}
