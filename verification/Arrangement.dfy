/** Where the children of a container stand, box by box. */
module Arrangement {
  import opened Wrappers
  import opened ParentForest
  import opened Nesting

  /** The boxes placed for the children of the element at `path`. */
  ghost predicate KidsAt(placed: seq<Placed>, path: Path, kids: seq<nat>, boxes: seq<Box>) {
    |boxes| == |kids| && forall k :: 0 <= k < |kids| ==> Placed(path + [kids[k]], boxes[k]) in placed
  }

  lemma KidsStillAt(placed: seq<Placed>, more: seq<Placed>, path: Path, kids: seq<nat>, boxes: seq<Box>)
    requires KidsAt(placed, path, kids, boxes) || KidsAt(more, path, kids, boxes)
    ensures KidsAt(placed + more, path, kids, boxes)
  {
  }

  lemma OneMoreAt(placed: seq<Placed>, more: seq<Placed>, path: Path, kids: seq<nat>, boxes: seq<Box>, box: Box)
    requires |boxes| < |kids| && KidsAt(placed, path, kids[..|boxes|], boxes)
    requires Placed(path + [kids[|boxes|]], box) in more
    ensures KidsAt(placed + more, path, kids[..|boxes| + 1], boxes + [box])
  {
  }

  /** The smallest square that holds `n` is `c` wide. */
  predicate Squarish(n: nat, c: nat) { c > 0 && n <= c * c && (n > 0 ==> (c - 1) * (c - 1) < n) }

  /** Side by side in rows of `columns`, a gap apart; each row a gap below the tallest box of the row before it. */
  ghost predicate InRows(gap: real, boxes: seq<Box>, left: real, top: real, columns: nat)
    requires columns > 0
  {
    && (boxes != [] ==> boxes[0].x == left && boxes[0].y == top)
    && forall k :: 0 <= k < |boxes| - 1 ==> NextFollows(gap, boxes, k, left, columns)
  }

  ghost predicate NextFollows(gap: real, boxes: seq<Box>, k: nat, left: real, columns: nat)
    requires k + 1 < |boxes| && columns > 0
  {
    Follows(gap, boxes, k, boxes[k + 1], left, columns)
  }

  ghost predicate Follows(gap: real, boxes: seq<Box>, k: nat, next: Box, left: real, columns: nat)
    requires k < |boxes| && columns > 0
  {
    if (k + 1) % columns != 0 then next.x == boxes[k].x + boxes[k].w + gap && next.y == boxes[k].y
    else next.x == left && BelowRow(gap, boxes, k, columns, next.y)
  }

  /** `y` is the gap below the tallest of the `columns` boxes up to `k`. */
  ghost predicate BelowRow(gap: real, boxes: seq<Box>, k: nat, columns: nat, y: real)
    requires k < |boxes|
  {
    && (forall i: nat :: k < i + columns && i <= k ==> boxes[i].y + boxes[i].h + gap <= y)
    && exists i: nat :: k < i + columns && i <= k && boxes[i].y + boxes[i].h + gap == y
  }

  /** Some box reaches the right border and some the bottom. */
  ghost predicate Snug(boxes: seq<Box>, right: real, bottom: real) {
    && (exists k :: 0 <= k < |boxes| && boxes[k].x + boxes[k].w == right)
    && (exists k :: 0 <= k < |boxes| && boxes[k].y + boxes[k].h == bottom)
  }

  lemma FollowsStill(gap: real, boxes: seq<Box>, box: Box, k: nat, next: Box, left: real, columns: nat)
    requires k < |boxes| && columns > 0 && Follows(gap, boxes, k, next, left, columns)
    ensures Follows(gap, boxes + [box], k, next, left, columns)
  {
    if (k + 1) % columns == 0 {
      var i: nat :| k < i + columns && i <= k && boxes[i].y + boxes[i].h + gap == next.y;
      assert (boxes + [box])[i] == boxes[i];
    }
  }

  lemma AddToRows(gap: real, boxes: seq<Box>, box: Box, left: real, top: real, columns: nat)
    requires columns > 0 && InRows(gap, boxes, left, top, columns)
    requires if boxes == [] then box.x == left && box.y == top
             else Follows(gap, boxes, |boxes| - 1, box, left, columns)
    ensures InRows(gap, boxes + [box], left, top, columns)
  {
    hide Follows;
    var all := boxes + [box];
    forall k | 0 <= k < |all| - 1 ensures NextFollows(gap, all, k, left, columns) {
      if k < |boxes| - 1 { assert NextFollows(gap, boxes, k, left, columns); }
      FollowsStill(gap, boxes, box, k, all[k + 1], left, columns);
    }
  }

  /** The row being filled began at box `s`; the next box goes to (`x`, `y`), and the row is `height` tall so far. */
  ghost predicate Filling(gap: real, boxes: seq<Box>, s: nat, left: real, x: real, y: real, height: real) {
    && s <= |boxes|
    && (forall j :: s <= j < |boxes| ==> boxes[j].y == y && boxes[j].h <= height)
    && (if s == |boxes| then x == left && height == 0.0
        else x == boxes[|boxes| - 1].x + boxes[|boxes| - 1].w + gap &&
             exists j :: s <= j < |boxes| && boxes[j].h == height)
  }

  lemma RowEnds(gap: real, boxes: seq<Box>, s: nat, left: real, x: real, y: real, height: real, columns: nat)
    requires s < |boxes| && columns == |boxes| - s && Filling(gap, boxes, s, left, x, y, height)
    ensures BelowRow(gap, boxes, |boxes| - 1, columns, y + height + gap)
    ensures Filling(gap, boxes, |boxes|, left, left, y + height + gap, 0.0)
  {
  }

  lemma FillOn(gap: real, boxes: seq<Box>, s: nat, left: real, x: real, y: real, height: real, box: Box)
    requires Filling(gap, boxes, s, left, x, y, height) && box.x == x && box.y == y && box.h >= 0.0
    ensures Filling(gap, boxes + [box], s, left, x + box.w + gap, y, Max(height, box.h))
  {
    var all := boxes + [box];
    if s < |boxes| && height >= box.h {
      var j :| s <= j < |boxes| && boxes[j].h == height;
      assert all[j].h == height;
    } else {
      assert all[|boxes|] == box;
    }
  }

  lemma RowPhase(s: nat, n: nat, columns: nat)
    requires columns > 0 && s % columns == 0 && s < n <= s + columns
    ensures n % columns == 0 <==> n == s + columns
  {
    var q := s / columns;
    assert s == q * columns;
    if n == s + columns { DividesBy(n, columns, q + 1, 0); } else { DividesBy(n, columns, q, n - s); }
  }

  lemma SnugOn(boxes: seq<Box>, right: real, bottom: real, box: Box)
    requires boxes != [] ==> Snug(boxes, right, bottom)
    requires boxes == [] ==> right <= box.x + box.w && bottom <= box.y + box.h
    ensures Snug(boxes + [box], Max(right, box.x + box.w), Max(bottom, box.y + box.h))
  {
    var all := boxes + [box];
    assert all[|boxes|] == box;
    if boxes != [] {
      var i :| 0 <= i < |boxes| && boxes[i].x + boxes[i].w == right;
      var j :| 0 <= j < |boxes| && boxes[j].y + boxes[j].h == bottom;
      assert all[i] == boxes[i] && all[j] == boxes[j];
    }
  }

  // ---- A single row ----

  /** Side by side from (`left`, `top`) on, a gap apart. */
  ghost predicate Beside(gap: real, boxes: seq<Box>, left: real, top: real) {
    && (boxes != [] ==> boxes[0].x == left) && (forall k :: 0 <= k < |boxes| ==> boxes[k].y == top)
    && forall k :: 0 <= k < |boxes| - 1 ==> boxes[k + 1].x == boxes[k].x + boxes[k].w + gap
  }

  lemma AddBeside(gap: real, boxes: seq<Box>, box: Box, left: real, top: real)
    requires Beside(gap, boxes, left, top) && box.y == top
    requires box.x == if boxes == [] then left else boxes[|boxes| - 1].x + boxes[|boxes| - 1].w + gap
    ensures Beside(gap, boxes + [box], left, top)
  {
  }

  /** A row that ends at `right`, the tallest box of which ends at `bottom`. */
  ghost predicate RowWithin(gap: real, boxes: seq<Box>, left: real, top: real, right: real, bottom: real) {
    && boxes != [] && Beside(gap, boxes, left, top)
    && right == boxes[|boxes| - 1].x + boxes[|boxes| - 1].w
    && (forall k :: 0 <= k < |boxes| ==> boxes[k].y + boxes[k].h <= bottom)
    && exists k :: 0 <= k < |boxes| && boxes[k].y + boxes[k].h == bottom
  }

  lemma RowFilled(gap: real, boxes: seq<Box>, left: real, top: real, x: real, height: real)
    requires boxes != [] && Beside(gap, boxes, left, top) && Filling(gap, boxes, 0, left, x, top, height)
    ensures RowWithin(gap, boxes, left, top, x - gap, top + height)
  {
  }

  /** Rows of boxes of the same sizes are as wide and as tall, wherever they begin. */
  lemma SameRow(gap: real, a: seq<Box>, aLeft: real, aTop: real, aRight: real, aBottom: real, b: seq<Box>, bLeft: real,
                bTop: real, bRight: real, bBottom: real)
    requires RowWithin(gap, a, aLeft, aTop, aRight, aBottom) && RowWithin(gap, b, bLeft, bTop, bRight, bBottom)
    requires |a| == |b| && forall k :: 0 <= k < |a| ==> a[k].w == b[k].w && a[k].h == b[k].h
    ensures aRight - aLeft == bRight - bLeft && aBottom - aTop == bBottom - bTop
  {
    SameOffset(gap, a, aLeft, aTop, b, bLeft, bTop, |a| - 1);
    var i :| 0 <= i < |a| && a[i].y + a[i].h == aBottom;
    var j :| 0 <= j < |b| && b[j].y + b[j].h == bBottom;
    assert b[i].y + b[i].h <= bBottom && a[j].y + a[j].h <= aBottom;
  }

  lemma {:induction false} SameOffset(gap: real, a: seq<Box>, aLeft: real, aTop: real, b: seq<Box>, bLeft: real,
                                      bTop: real, k: nat)
    requires Beside(gap, a, aLeft, aTop) && Beside(gap, b, bLeft, bTop) && |a| == |b| && k < |a|
    requires forall i :: 0 <= i < |a| ==> a[i].w == b[i].w
    ensures a[k].x - aLeft == b[k].x - bLeft
  {
    if k > 0 {
      SameOffset(gap, a, aLeft, aTop, b, bLeft, bTop, k - 1);
      assert a[k - 1].w == b[k - 1].w && a[k - 1 + 1] == a[k] && b[k - 1 + 1] == b[k];
    }
  }

  // ---- Rows of a limited width ----

  /** Each box goes on in the row if it ends within `width` there, and otherwise starts the next row. */
  ghost predicate Wrapping(gap: real, rowGap: real, width: real, boxes: seq<Box>) {
    && (boxes != [] ==> boxes[0].x == 0.0 && boxes[0].y == 0.0)
    && forall k :: 0 <= k < |boxes| - 1 ==> NextWraps(gap, rowGap, width, boxes, k)
  }

  ghost predicate NextWraps(gap: real, rowGap: real, width: real, boxes: seq<Box>, k: nat)
    requires k + 1 < |boxes|
  {
    WrapsTo(gap, rowGap, width, boxes, k, boxes[k + 1])
  }

  ghost predicate WrapsTo(gap: real, rowGap: real, width: real, boxes: seq<Box>, k: nat, next: Box)
    requires k < |boxes|
  {
    var end := boxes[k].x + boxes[k].w + gap;
    if end + next.w <= width then next.x == end && next.y == boxes[k].y
    else next.x == 0.0 && BelowLast(rowGap, boxes, k, next.y)
  }

  /** `y` is the gap below the tallest box of box `k`'s row. */
  ghost predicate BelowLast(rowGap: real, boxes: seq<Box>, k: nat, y: real)
    requires k < |boxes|
  {
    && (forall i :: 0 <= i <= k && boxes[i].y == boxes[k].y ==> boxes[i].y + boxes[i].h + rowGap <= y)
    && exists i :: 0 <= i <= k && boxes[i].y == boxes[k].y && boxes[i].y + boxes[i].h + rowGap == y
  }

  lemma WrapsStill(gap: real, rowGap: real, width: real, boxes: seq<Box>, box: Box, k: nat, next: Box)
    requires k < |boxes| && WrapsTo(gap, rowGap, width, boxes, k, next)
    ensures WrapsTo(gap, rowGap, width, boxes + [box], k, next)
  {
    if boxes[k].x + boxes[k].w + gap + next.w > width {
      var i :| 0 <= i <= k && boxes[i].y == boxes[k].y && boxes[i].y + boxes[i].h + rowGap == next.y;
      assert (boxes + [box])[i] == boxes[i];
    }
  }

  lemma AddWrapping(gap: real, rowGap: real, width: real, boxes: seq<Box>, box: Box)
    requires Wrapping(gap, rowGap, width, boxes)
    requires if boxes == [] then box.x == 0.0 && box.y == 0.0
             else WrapsTo(gap, rowGap, width, boxes, |boxes| - 1, box)
    ensures Wrapping(gap, rowGap, width, boxes + [box])
  {
    hide WrapsTo;
    var all := boxes + [box];
    forall k | 0 <= k < |all| - 1 ensures NextWraps(gap, rowGap, width, all, k) {
      if k < |boxes| - 1 { assert NextWraps(gap, rowGap, width, boxes, k); }
      WrapsStill(gap, rowGap, width, boxes, box, k, all[k + 1]);
    }
  }

  /** Where the next box would go in the row, and how tall the row is. */
  ghost predicate AtRowEnd(gap: real, boxes: seq<Box>, x: real, y: real, height: real) {
    if boxes == [] then x == 0.0 && y == 0.0 && height == 0.0
    else
      && x == boxes[|boxes| - 1].x + boxes[|boxes| - 1].w + gap && y == boxes[|boxes| - 1].y
      && (forall i :: 0 <= i < |boxes| ==> boxes[i].y <= y && (boxes[i].y == y ==> boxes[i].h <= height))
      && exists i :: 0 <= i < |boxes| && boxes[i].y == y && boxes[i].h == height
  }

  lemma GoOnInRow(gap: real, rowGap: real, width: real, boxes: seq<Box>, x: real, y: real, height: real, box: Box)
    requires Wrapping(gap, rowGap, width, boxes) && AtRowEnd(gap, boxes, x, y, height)
    requires box.x == x && box.y == y && box.h >= 0.0 && (boxes == [] || x + box.w <= width)
    ensures Wrapping(gap, rowGap, width, boxes + [box])
    ensures AtRowEnd(gap, boxes + [box], x + box.w + gap, y, Max(height, box.h))
  {
    AddWrapping(gap, rowGap, width, boxes, box);
    var all := boxes + [box];
    assert all[|boxes|] == box;
    if boxes != [] {
      var i :| 0 <= i < |boxes| && boxes[i].y == y && boxes[i].h == height;
      assert all[i] == boxes[i];
    }
  }

  lemma GoToNextRow(gap: real, rowGap: real, width: real, boxes: seq<Box>, x: real, y: real, height: real, box: Box)
    requires boxes != [] && Wrapping(gap, rowGap, width, boxes) && AtRowEnd(gap, boxes, x, y, height) && rowGap > 0.0
    requires box.x == 0.0 && box.y == y + height + rowGap && box.h >= 0.0 && x + box.w > width && height >= 0.0
    ensures Wrapping(gap, rowGap, width, boxes + [box])
    ensures AtRowEnd(gap, boxes + [box], box.w + gap, box.y, box.h)
  {
    var i :| 0 <= i < |boxes| && boxes[i].y == y && boxes[i].h == height;
    assert BelowLast(rowGap, boxes, |boxes| - 1, box.y);
    AddWrapping(gap, rowGap, width, boxes, box);
    assert (boxes + [box])[|boxes|] == box;
  }
}
