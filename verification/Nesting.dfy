/** Boxes nested in boxes: when a placement encloses and separates as its elements nest, and how one grows. */
module Nesting {
  import opened Wrappers
  import opened ParentForest

  /** The gap between siblings, the padding inside a container, and the height of its title band. */
  datatype Margins = Margins(gap: real, pad: real, header: real)

  /** The smallest number of columns, from `c` on, whose square holds `n`. */
  function CeilSqrt(n: nat, c: nat): (r: nat)
    ensures r >= c && r * r >= n && (r > c ==> (r - 1) * (r - 1) < n)
    decreases if c <= n then n - c else 0
  {
    if c * c >= n then c else CeilSqrt(n, c + 1)
  }

  datatype Box = Box(x: real, y: real, w: real, h: real)

  ghost predicate Distinct(kids: seq<nat>) { forall i, j :: 0 <= i < j < |kids| ==> kids[i] != kids[j] }

  /** A box and the path, from a root down, of the element it is for. */
  datatype Placed = Placed(path: Path, box: Box)

  // ---- Geometry ----

  predicate Apart(m: Margins, a: Box, b: Box) {
    a.x + a.w + m.gap <= b.x || b.x + b.w + m.gap <= a.x || a.y + a.h + m.gap <= b.y || b.y + b.h + m.gap <= a.y
  }

  /** Inside a boundary: clear of its border and below its label. */
  predicate InsideBoundary(m: Margins, q: Box, p: Box) {
    && p.x + m.pad <= q.x && q.x + q.w + m.pad <= p.x + p.w
    && p.y + m.header <= q.y && q.y + q.h + m.pad <= p.y + p.h
  }

  predicate InRegion(b: Box, left: real, top: real, right: real, bottom: real) {
    left <= b.x && b.x + b.w <= right && top <= b.y && b.y + b.h <= bottom
  }

  lemma StillApart(m: Margins, a: Box, b: Box, p: Box, q: Box)
    requires m.pad >= 0.0 && m.header >= 0.0 && Apart(m, a, b) && (p == a || InsideBoundary(m, p, a)) &&
             (q == b || InsideBoundary(m, q, b))
    ensures Apart(m, p, q) && Apart(m, q, p)
  {
  }

  // ---- Rows ----

  /** The boxes placed so far and the row being filled. */
  ghost predicate Rows(m: Margins, boxes: seq<Box>, left: real, top: real, rowX: real, rowY: real, rowH: real,
                       right: real, bottom: real)
  {
    && rowX >= left && rowY >= top && rowH >= 0.0
    && forall k :: 0 <= k < |boxes| ==>
         InRegion(boxes[k], left, top, right, bottom) && BeforeRow(m, boxes[k], rowX, rowY, rowH)
  }

  predicate BeforeRow(m: Margins, b: Box, rowX: real, rowY: real, rowH: real) {
    b.y + b.h + m.gap <= rowY || (b.y == rowY && b.h <= rowH && b.x + b.w + m.gap <= rowX)
  }

  lemma WrapKeepsRows(m: Margins, boxes: seq<Box>, left: real, top: real, rowX: real, rowY: real, rowH: real,
                      right: real, bottom: real, nextY: real)
    requires m.gap >= 0.0 && Rows(m, boxes, left, top, rowX, rowY, rowH, right, bottom) && nextY >= rowY + rowH + m.gap
    ensures Rows(m, boxes, left, top, left, nextY, 0.0, right, bottom)
  {
  }

  lemma NextInRow(m: Margins, boxes: seq<Box>, b: Box, left: real, top: real, rowX: real, rowY: real, rowH: real,
                  right: real, bottom: real)
    requires m.gap >= 0.0 && Rows(m, boxes, left, top, rowX, rowY, rowH, right, bottom)
    requires b.x == rowX && b.y == rowY && b.w >= 0.0
    ensures Rows(m, boxes + [b], left, top, rowX + b.w + m.gap, rowY, Max(rowH, b.h), Max(right, b.x + b.w),
                 Max(bottom, b.y + b.h))
    ensures forall k :: 0 <= k < |boxes| ==> Apart(m, boxes[k], b)
  {
  }

  // ---- What a placement means ----

  /** One encloses the other exactly as one path extends the other; otherwise they keep apart. */
  predicate Related(m: Margins, p: Placed, q: Placed) {
    && (!IsPrefix(p.path, q.path) && !IsPrefix(q.path, p.path) ==> Apart(m, p.box, q.box))
    && (IsPrefix(p.path, q.path) && p.path != q.path ==> InsideBoundary(m, q.box, p.box))
    && (IsPrefix(q.path, p.path) && p.path != q.path ==> InsideBoundary(m, p.box, q.box))
    && (p.path == q.path ==> p == q)
  }

  ghost predicate Sound(m: Margins, placed: seq<Placed>) {
    forall p, q :: p in placed && q in placed ==> Related(m, p, q)
  }

  /** No path is placed twice. */
  ghost predicate Once(placed: seq<Placed>) {
    forall i, j :: 0 <= i < j < |placed| ==> placed[i].path != placed[j].path
  }

  ghost predicate HasPath(placed: seq<Placed>, path: Path) { exists p :: p in placed && p.path == path }

  // ---- Children so far ----

  predicate OfKid(m: Margins, q: Placed, path: Path, kid: nat, box: Box) {
    IsPrefix(path + [kid], q.path) && (q.box == box || InsideBoundary(m, q.box, box))
  }

  ghost predicate OfKids(m: Margins, placed: seq<Placed>, path: Path, kids: seq<nat>, boxes: seq<Box>)
    requires |boxes| <= |kids|
  {
    forall q :: q in placed ==> OfSomeKid(m, q, path, kids, boxes)
  }

  ghost predicate OfSomeKid(m: Margins, q: Placed, path: Path, kids: seq<nat>, boxes: seq<Box>)
    requires |boxes| <= |kids|
  {
    exists k :: 0 <= k < |boxes| && OfKid(m, q, path, kids[k], boxes[k])
  }

  ghost predicate UnderKids(q: Path, path: Path, kids: seq<nat>, n: nat)
    requires n <= |kids|
  {
    exists k :: 0 <= k < n && IsPrefix(path + [kids[k]], q)
  }

  lemma PathsPart(path: Path, a: nat, b: nat, p: Path, q: Path)
    requires a != b && IsPrefix(path + [a], p) && IsPrefix(path + [b], q)
    ensures !IsPrefix(p, q) && !IsPrefix(q, p) && p != q
  {
    assert p[|path|] == p[..|path| + 1][|path|] && q[|path|] == q[..|path| + 1][|path|];
    PrefixAt(p, q, |path|);
    PrefixAt(q, p, |path|);
  }

  lemma PrefixAt(p: Path, q: Path, n: nat)
    ensures IsPrefix(p, q) && n < |p| ==> q[n] == p[n]
  {
    assert IsPrefix(p, q) && n < |p| ==> q[..|p|][n] == q[n];
  }

  lemma NewKidApart(m: Margins, path: Path, kids: seq<nat>, boxes: seq<Box>, box: Box, p: Placed, q: Placed)
    requires m.pad >= 0.0 && m.header >= 0.0 && Distinct(kids) && |boxes| < |kids|
    requires forall k :: 0 <= k < |boxes| ==> Apart(m, boxes[k], box)
    requires OfSomeKid(m, p, path, kids, boxes) && OfKid(m, q, path, kids[|boxes|], box)
    ensures Related(m, p, q) && Related(m, q, p) && p.path != q.path
  {
    var k :| 0 <= k < |boxes| && OfKid(m, p, path, kids[k], boxes[k]);
    assert kids[k] != kids[|boxes|];
    PathsPart(path, kids[k], kids[|boxes|], p.path, q.path);
    StillApart(m, boxes[k], box, p.box, q.box);
  }

  lemma AddKidSound(m: Margins, path: Path, kids: seq<nat>, boxes: seq<Box>, box: Box, placed: seq<Placed>,
                    more: seq<Placed>)
    requires m.pad >= 0.0 && m.header >= 0.0 && Distinct(kids) && |boxes| < |kids|
    requires forall k :: 0 <= k < |boxes| ==> Apart(m, boxes[k], box)
    requires Sound(m, placed) && Sound(m, more) && Once(placed) && Once(more) && OfKids(m, placed, path, kids, boxes)
    requires forall q :: q in more ==> OfKid(m, q, path, kids[|boxes|], box)
    ensures Sound(m, placed + more) && Once(placed + more)
  {
    hide Related, OfKid, OfSomeKid, Apart, Distinct;
    forall p, q | p in placed && q in more ensures Related(m, p, q) && Related(m, q, p) && p.path != q.path {
      NewKidApart(m, path, kids, boxes, box, p, q);
    }
    var all := placed + more;
    forall i, j | 0 <= i < j < |all| ensures all[i].path != all[j].path {
      if i < |placed| <= j { assert all[i] in placed && all[j] in more; }
    }
  }

  lemma AddKidOf(m: Margins, path: Path, kids: seq<nat>, boxes: seq<Box>, box: Box, placed: seq<Placed>,
                 more: seq<Placed>)
    requires |boxes| < |kids| && OfKids(m, placed, path, kids, boxes)
    requires forall q :: q in more ==> OfKid(m, q, path, kids[|boxes|], box)
    ensures OfKids(m, placed + more, path, kids, boxes + [box])
  {
    hide OfKid;
    var wider := boxes + [box];
    forall q | q in placed + more ensures OfSomeKid(m, q, path, kids, wider) {
      if q in placed {
        assert OfSomeKid(m, q, path, kids, boxes);
        var k :| 0 <= k < |boxes| && OfKid(m, q, path, kids[k], boxes[k]);
        assert wider[k] == boxes[k];
      } else {
        assert wider[|boxes|] == box;
      }
    }
  }

  // ---- A container around its children ----

  ghost predicate NestedIn(m: Margins, placed: seq<Placed>, path: Path, left: real, top: real, right: real,
                           bottom: real)
  {
    && Sound(m, placed) && Once(placed)
    && (forall q :: q in placed ==>
          IsPrefix(path, q.path) && q.path != path && InRegion(q.box, left, top, right, bottom))
  }

  lemma LongerPath(path: Path, q: Path)
    requires IsPrefix(path, q) && q != path
    ensures |q| > |path|
  {
    assert q == q[..|q|];
  }

  lemma AroundSound(m: Margins, path: Path, inner: seq<Placed>, box: Box, right: real, bottom: real)
    requires NestedIn(m, inner, path, box.x + m.pad, box.y + m.header, right, bottom)
    requires right + m.pad <= box.x + box.w && bottom + m.pad <= box.y + box.h
    ensures Sound(m, inner + [Placed(path, box)]) && Once(inner + [Placed(path, box)])
    ensures forall q :: q in inner ==> IsPrefix(path, q.path) && InsideBoundary(m, q.box, box)
  {
    var outer := Placed(path, box);
    var all := inner + [outer];
    forall p, q | p in all && q in all ensures Related(m, p, q) {
      if p in inner && q in inner {
      } else if p in inner {
        LongerPath(path, p.path);
      } else if q in inner {
        LongerPath(path, q.path);
      }
    }
    forall i, j | 0 <= i < j < |all| ensures all[i].path != all[j].path {
      assert i < |inner| && all[i] == inner[i];
    }
  }

  lemma OneIsSound(m: Margins, p: Placed)
    ensures Sound(m, [p]) && Once([p])
  {
    assert IsPrefix(p.path, p.path);
  }

  lemma ShorterPrefix(path: Path, id: nat, q: Path)
    requires IsPrefix(path + [id], q)
    ensures IsPrefix(path, q) && q != path
  {
    assert q[..|path|] == q[..|path| + 1][..|path|];
  }

  /** Everything placed for the children lies in their region, under the container's path. */
  lemma KidsNested(m: Margins, path: Path, kids: seq<nat>, placed: seq<Placed>, boxes: seq<Box>,
                   left: real, top: real, right: real, bottom: real)
    requires m.pad >= 0.0 && m.header >= 0.0 && |boxes| <= |kids|
    requires Sound(m, placed) && Once(placed) && OfKids(m, placed, path, kids, boxes)
    requires forall k :: 0 <= k < |boxes| ==> InRegion(boxes[k], left, top, right, bottom)
    ensures NestedIn(m, placed, path, left, top, right, bottom)
  {
    forall q | q in placed
      ensures IsPrefix(path, q.path) && q.path != path && InRegion(q.box, left, top, right, bottom)
    {
      assert OfSomeKid(m, q, path, kids, boxes);
      var k :| 0 <= k < |boxes| && OfKid(m, q, path, kids[k], boxes[k]);
      ShorterPrefix(path, kids[k], q.path);
    }
  }

  // ---- The order of placement ----

  /** At `k` the paths part, and `p` goes on with an earlier element. */
  predicate PartsEarlier(p: Path, q: Path, k: nat) { k < |p| && k < |q| && p[..k] == q[..k] && p[k] < q[k] }

  /** `p` is placed before `q`: it lies under it, or under an earlier sibling. */
  ghost predicate Before(p: Path, q: Path) { (IsPrefix(q, p) && p != q) || exists k: nat :: PartsEarlier(p, q, k) }

  ghost predicate InOrder(placed: seq<Placed>) {
    forall i, j :: 0 <= i < j < |placed| ==> Before(placed[i].path, placed[j].path)
  }

  ghost predicate Ascending(kids: seq<nat>) { forall i, j :: 0 <= i < j < |kids| ==> kids[i] < kids[j] }

  lemma EarlierKidBefore(path: Path, a: nat, b: nat, p: Path, q: Path)
    requires a < b && IsPrefix(path + [a], p) && IsPrefix(path + [b], q)
    ensures Before(p, q)
  {
    assert p[|path|] == p[..|path| + 1][|path|] && q[|path|] == q[..|path| + 1][|path|];
    assert p[..|path|] == p[..|path| + 1][..|path|] && q[..|path|] == q[..|path| + 1][..|path|];
    assert PartsEarlier(p, q, |path|);
  }

  lemma AddKidInOrder(m: Margins, path: Path, kids: seq<nat>, boxes: seq<Box>, box: Box, placed: seq<Placed>,
                      more: seq<Placed>)
    requires Ascending(kids) && |boxes| < |kids| && InOrder(placed) && InOrder(more) &&
             OfKids(m, placed, path, kids, boxes)
    requires forall q :: q in more ==> OfKid(m, q, path, kids[|boxes|], box)
    ensures InOrder(placed + more)
  {
    hide Before;
    var all := placed + more;
    forall i, j | 0 <= i < j < |all| ensures Before(all[i].path, all[j].path) {
      if i < |placed| <= j {
        assert all[i] in placed && all[j] in more && OfSomeKid(m, all[i], path, kids, boxes);
        var k :| 0 <= k < |boxes| && OfKid(m, all[i], path, kids[k], boxes[k]);
        EarlierKidBefore(path, kids[k], kids[|boxes|], all[i].path, all[j].path);
      }
    }
  }

  lemma AroundInOrder(inner: seq<Placed>, p: Placed)
    requires InOrder(inner) && forall q :: q in inner ==> IsPrefix(p.path, q.path) && q.path != p.path
    ensures InOrder(inner + [p])
  {
  }
}
