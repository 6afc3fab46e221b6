/** Hanging a subtree under another node by moving its block of indentations: exactly one tree edge changes. */
module MindmapMove {
  import opened Wrappers
  import opened MindmapTree

  /** `c` up to `e` is the subtree of `c`: the maximal run of deeper lines after it. */
  ghost predicate IsSubtree(ind: seq<int>, c: nat, e: nat) {
    c < e <= |ind| && (forall x :: c < x < e ==> ind[x] > ind[c]) && (e < |ind| ==> ind[e] <= ind[c])
  }

  function Shifted(ind: seq<int>, delta: int): (r: seq<int>)
    ensures |r| == |ind| && forall k :: 0 <= k < |ind| ==> r[k] == ind[k] + delta
  {
    if ind == [] then [] else [ind[0] + delta] + Shifted(ind[1..], delta)
  }

  /** The block `c..e` taken out and `block` put in right after `p`. */
  function Spliced<T>(v: seq<T>, p: nat, c: nat, e: nat, block: seq<T>): seq<T>
    requires c < e <= |v| && p < |v| && (p < c || e <= p)
  {
    if p < c then v[..p + 1] + block + v[p + 1..c] + v[e..]
    else v[..c] + v[e..p + 1] + block + v[p + 1..]
  }

  function Moved(ind: seq<int>, p: nat, c: nat, e: nat, delta: int): seq<int>
    requires c < e <= |ind| && p < |ind| && (p < c || e <= p)
  {
    Spliced(ind, p, c, e, Shifted(ind[c..e], delta))
  }

  /** Where the line at `x` ends up. */
  function Place(p: nat, c: nat, e: nat, x: nat): int {
    if c <= x < e then (if p < c then p + 1 else p + 1 - (e - c)) + (x - c)
    else if p < x < c then x + (e - c)
    else if e <= x <= p then x - (e - c)
    else x
  }

  function NewIndent(ind: seq<int>, c: nat, e: nat, delta: int, x: nat): int
    requires x < |ind|
  {
    ind[x] + if c <= x < e then delta else 0
  }

  lemma PlaceForward<T>(v: seq<T>, p: nat, c: nat, e: nat, block: seq<T>, x: nat)
    requires p < c < e <= |v| && x < |v| && |block| == e - c
    ensures |Spliced(v, p, c, e, block)| == |v|
    ensures 0 <= Place(p, c, e, x) < |v|
    ensures Spliced(v, p, c, e, block)[Place(p, c, e, x)] == if c <= x < e then block[x - c] else v[x]
  {
  }

  lemma PlaceBack<T>(v: seq<T>, p: nat, c: nat, e: nat, block: seq<T>, x: nat)
    requires c < e <= p < |v| && x < |v| && |block| == e - c
    ensures |Spliced(v, p, c, e, block)| == |v|
    ensures 0 <= Place(p, c, e, x) < |v|
    ensures Spliced(v, p, c, e, block)[Place(p, c, e, x)] == if c <= x < e then block[x - c] else v[x]
  {
  }

  lemma PlaceInRange<T>(v: seq<T>, p: nat, c: nat, e: nat, block: seq<T>, x: nat)
    requires c < e <= |v| && p < |v| && (p < c || e <= p) && x < |v| && |block| == e - c
    ensures |Spliced(v, p, c, e, block)| == |v|
    ensures 0 <= Place(p, c, e, x) < |v|
    ensures Spliced(v, p, c, e, block)[Place(p, c, e, x)] == if c <= x < e then block[x - c] else v[x]
  {
    hide Spliced, Place;
    if p < c { PlaceForward(v, p, c, e, block, x); } else { PlaceBack(v, p, c, e, block, x); }
  }

  /** Every position is taken by exactly one line. */
  lemma PlaceIsOnto(p: nat, c: nat, e: nat, n: nat, m: nat) returns (x: nat)
    requires c < e <= n && p < n && (p < c || e <= p) && m < n
    ensures x < n && Place(p, c, e, x) == m
  {
    if p < c {
      if m <= p { x := m; } else if m < p + 1 + (e - c) { x := m - (p + 1) + c; }
      else if m < e { x := m - (e - c); } else { x := m; }
    } else {
      if m < c { x := m; } else if m < p + 1 - (e - c) { x := m + (e - c); }
      else if m <= p { x := m - (p + 1 - (e - c)) + c; } else { x := m; }
    }
  }

  /** The subtree comes first under its new parent, and the order is kept inside it and outside it. */
  lemma PlaceKeepsOrder(p: nat, c: nat, e: nat, x: nat, y: nat)
    requires c < e && (p < c || e <= p) && x < y && (c <= x < e <==> c <= y < e)
    ensures Place(p, c, e, x) < Place(p, c, e, y) && Place(p, c, e, c) == Place(p, c, e, p) + 1
  {
  }

  /** The parent of a line outside the subtree is outside the subtree. */
  lemma OutsideParent(ind: seq<int>, c: nat, e: nat, x: nat)
    requires IsSubtree(ind, c, e) && x < |ind| && !(c <= x < e)
    ensures Parent(ind, x).Some? ==> !(c <= Parent(ind, x).value < e)
  {
  }

  /** The parent of a line of the subtree other than its root is in the subtree. */
  lemma InsideParent(ind: seq<int>, c: nat, e: nat, x: nat)
    requires IsSubtree(ind, c, e) && c < x < e
    ensures Parent(ind, x).Some? && c <= Parent(ind, x).value < e
  {
  }

  /** The moved root lands deeper than its new parent and no shallower than its new siblings. */
  ghost predicate Fits(ind: seq<int>, p: nat, c: nat, delta: int)
    requires p < |ind| && c < |ind|
  {
    ind[p] < ind[c] + delta && forall x :: 0 <= x < |ind| && x != c && Parent(ind, x) == Some(p) ==>
        ind[x] <= ind[c] + delta
  }

  /** The parent a line ought to have afterwards, in new positions. */
  function Wanted(ind: seq<int>, p: nat, c: nat, e: nat, x: nat): Option<int>
    requires x < |ind|
  {
    if x == c then Some(Place(p, c, e, p))
    else if Parent(ind, x).None? then None
    else Some(Place(p, c, e, Parent(ind, x).value))
  }

  /** The parent line `x` of the old text has in the new one. */
  function NewParent(after: seq<int>, p: nat, c: nat, e: nat, x: nat): Option<int>
    requires 0 <= Place(p, c, e, x) < |after|
  {
    match Parent(after, Place(p, c, e, x))
    case None => None
    case Some(y) => Some(y)
  }

  /** Only the edge above `c` changed. */
  ghost predicate OneEdgeMoved(before: seq<int>, after: seq<int>, p: nat, c: nat, e: nat) {
    && |after| == |before|
    && forall x :: 0 <= x < |before| ==>
         0 <= Place(p, c, e, x) < |after| && NewParent(after, p, c, e, x) == Wanted(before, p, c, e, x)
  }

  lemma MovedAt(ind: seq<int>, p: nat, c: nat, e: nat, delta: int, x: nat)
    requires c < e <= |ind| && p < |ind| && (p < c || e <= p) && x < |ind|
    ensures |Moved(ind, p, c, e, delta)| == |ind| && 0 <= Place(p, c, e, x) < |ind|
    ensures Moved(ind, p, c, e, delta)[Place(p, c, e, x)] == NewIndent(ind, c, e, delta, x)
  {
    PlaceInRange(ind, p, c, e, Shifted(ind[c..e], delta), x);
  }

  /** No line that comes to stand between a line and its parent is above that line. */
  lemma StaysClear(ind: seq<int>, p: nat, c: nat, e: nat, delta: int, x: nat, m: nat)
    requires IsSubtree(ind, c, e) && p < |ind| && (p < c || e <= p) && Fits(ind, p, c, delta)
    requires x < |ind| && x != c && m < |ind|
    requires Place(p, c, e, m) < Place(p, c, e, x)
    requires Parent(ind, x).Some? ==> Place(p, c, e, Parent(ind, x).value) < Place(p, c, e, m)
    ensures NewIndent(ind, c, e, delta, m) >= NewIndent(ind, c, e, delta, x)
  {
    if c < x < e {
      InsideParent(ind, c, e, x);
    } else {
      OutsideParent(ind, c, e, x);
      if c <= m < e { BlockStaysClear(ind, p, c, e, delta, x, m); }
    }
  }

  lemma BlockFollowsP(p: nat, c: nat, e: nat, x: nat, m: nat)
    requires (p < c || e <= p) && !(c <= x < e) && c <= m < e
    ensures Place(p, c, e, m) < Place(p, c, e, x) <==> p < x
    ensures Place(p, c, e, x) < Place(p, c, e, m) <==> x <= p
  {
  }

  /** The block, one line of which is `m`, is put between `x` and its parent. */
  lemma BlockStaysClear(ind: seq<int>, p: nat, c: nat, e: nat, delta: int, x: nat, m: nat)
    requires IsSubtree(ind, c, e) && p < |ind| && (p < c || e <= p) && Fits(ind, p, c, delta)
    requires x < |ind| && !(c <= x < e) && c <= m < e
    requires Place(p, c, e, m) < Place(p, c, e, x)
    requires Parent(ind, x).Some? ==>
               !(c <= Parent(ind, x).value < e) && Place(p, c, e, Parent(ind, x).value) < Place(p, c, e, m)
    ensures ind[m] + delta >= ind[x]
  {
    BlockFollowsP(p, c, e, x, m);
    if Parent(ind, x).Some? { BlockFollowsP(p, c, e, Parent(ind, x).value, m); }
    RoomAboveP(ind, p, c, delta, x);
    assert ind[m] >= ind[c];
  }

  lemma RoomAboveP(ind: seq<int>, p: nat, c: nat, delta: int, x: nat)
    requires p < |ind| && c < |ind| && Fits(ind, p, c, delta) && p < x < |ind| && x != c
    requires Parent(ind, x).Some? ==> Parent(ind, x).value <= p
    ensures ind[x] <= ind[c] + delta
  {
    hide NearestBelow;
    if Parent(ind, x) != Some(p) { assert ind[p] >= ind[x]; }
  }

  lemma ParentPlaced(ind: seq<int>, p: nat, c: nat, e: nat, delta: int, x: nat, y: nat)
    requires IsSubtree(ind, c, e) && p < |ind| && (p < c || e <= p)
    requires x < |ind| && x != c && Parent(ind, x) == Some(y)
    ensures Place(p, c, e, y) < Place(p, c, e, x)
    ensures NewIndent(ind, c, e, delta, y) < NewIndent(ind, c, e, delta, x)
  {
    if c < x < e {
      InsideParent(ind, c, e, x);
    } else {
      OutsideParent(ind, c, e, x);
    }
  }

  lemma RootHangs(ind: seq<int>, p: nat, c: nat, e: nat, delta: int)
    requires c < e <= |ind| && p < |ind| && (p < c || e <= p)
    ensures |Moved(ind, p, c, e, delta)| == |ind| && 0 <= Place(p, c, e, c) < |ind|
    ensures NewParent(Moved(ind, p, c, e, delta), p, c, e, c) == Wanted(ind, p, c, e, c) <==> ind[p] < ind[c] + delta
  {
    MovedAt(ind, p, c, e, delta, c);
    MovedAt(ind, p, c, e, delta, p);
    ParentIsUnique(Moved(ind, p, c, e, delta), Place(p, c, e, c), Some(Place(p, c, e, p)));
  }

  lemma OthersKeepParent(ind: seq<int>, p: nat, c: nat, e: nat, delta: int, x: nat)
    requires IsSubtree(ind, c, e) && p < |ind| && (p < c || e <= p) && x < |ind| && x != c
    requires Fits(ind, p, c, delta)
    ensures |Moved(ind, p, c, e, delta)| == |ind| && 0 <= Place(p, c, e, x) < |ind|
    ensures NewParent(Moved(ind, p, c, e, delta), p, c, e, x) == Wanted(ind, p, c, e, x)
  {
    var moved := Moved(ind, p, c, e, delta);
    MovedAt(ind, p, c, e, delta, x);
    var k: nat := Place(p, c, e, x);
    var was := Parent(ind, x);
    if was.Some? { MovedAt(ind, p, c, e, delta, was.value); }
    var q: Option<nat> := if was.None? then None else Some(Place(p, c, e, was.value));
    forall m: nat | m < k && (q.Some? ==> q.value < m) ensures moved[m] >= moved[k] {
      var y := PlaceIsOnto(p, c, e, |ind|, m);
      MovedAt(ind, p, c, e, delta, y);
      StaysClear(ind, p, c, e, delta, x, y);
    }
    if was.Some? { ParentPlaced(ind, p, c, e, delta, x, was.value); }
    ParentIsUnique(moved, k, q);
  }

  lemma SiblingsNeedRoom(ind: seq<int>, p: nat, c: nat, e: nat, delta: int, x: nat)
    requires IsSubtree(ind, c, e) && p < |ind| && (p < c || e <= p)
    requires x < |ind| && x != c && Parent(ind, x) == Some(p)
    requires OneEdgeMoved(ind, Moved(ind, p, c, e, delta), p, c, e)
    ensures ind[x] <= ind[c] + delta
  {
    if c < x < e { InsideParent(ind, c, e, x); }
    MovedAt(ind, p, c, e, delta, x);
    MovedAt(ind, p, c, e, delta, c);
    assert NewParent(Moved(ind, p, c, e, delta), p, c, e, x) == Wanted(ind, p, c, e, x);
    assert Place(p, c, e, p) < Place(p, c, e, c) < Place(p, c, e, x);
  }

  /** Moving the block changes just the one edge exactly when its root fits. */
  lemma MoveChangesOneEdge(ind: seq<int>, p: nat, c: nat, e: nat, delta: int)
    requires IsSubtree(ind, c, e) && p < |ind| && (p < c || e <= p)
    ensures OneEdgeMoved(ind, Moved(ind, p, c, e, delta), p, c, e) <==> Fits(ind, p, c, delta)
  {
    var after := Moved(ind, p, c, e, delta);
    RootHangs(ind, p, c, e, delta);
    if Fits(ind, p, c, delta) {
      forall x | 0 <= x < |ind|
        ensures 0 <= Place(p, c, e, x) < |after| && NewParent(after, p, c, e, x) == Wanted(ind, p, c, e, x)
      {
        if x != c { OthersKeepParent(ind, p, c, e, delta, x); }
      }
    }
    if OneEdgeMoved(ind, after, p, c, e) {
      forall x | 0 <= x < |ind| && x != c && Parent(ind, x) == Some(p) ensures ind[x] <= ind[c] + delta {
        SiblingsNeedRoom(ind, p, c, e, delta, x);
      }
      assert NewParent(after, p, c, e, c) == Wanted(ind, p, c, e, c);
    }
  }

  /** Where only the edge above `c` changed, `c`'s subtree comes one level below `p` and everything else keeps its
  depth. */
  lemma {:induction false} DepthsFollow(before: seq<int>, after: seq<int>, p: nat, c: nat, e: nat, x: nat)
    requires OneEdgeMoved(before, after, p, c, e) && IsSubtree(before, c, e)
    requires p < |before| && (p < c || e <= p) && x < |before|
    ensures 0 <= Place(p, c, e, x) < |after|
    ensures Depth(after, Place(p, c, e, x)) ==
            Depth(before, x) + if c <= x < e then Depth(before, p) + 1 - Depth(before, c) else 0
    decreases c <= x < e, x
  {
    assert NewParent(after, p, c, e, x) == Wanted(before, p, c, e, x);
    hide OneEdgeMoved, Place;
    if x == c {
      DepthsFollow(before, after, p, c, e, p);
    } else if Parent(before, x).Some? {
      if c < x < e { InsideParent(before, c, e, x); } else { OutsideParent(before, c, e, x); }
      DepthsFollow(before, after, p, c, e, Parent(before, x).value);
    }
  }
}
