/** The binary min-heap of the maze router, keyed by `f` and sifted in place. */
module MazeHeap {
  import opened Wrappers
  import opened MazeGrid

  datatype Item = Item(state: State, f: real)

  function Parent(i: int): int { (i - 1) / 2 }

  predicate Linked(h: seq<Item>, i: int)
    requires 0 < i < |h|
  {
    h[Parent(i)].f <= h[i].f
  }

  predicate HeapOrdered(h: seq<Item>) {
    forall i :: 0 < i < |h| ==> Linked(h, i)
  }

  /** Moving the item at `hole` up or down may be all that is missing: every other link holds, and so do the links
  from its children to its parent. */
  predicate Bridged(h: seq<Item>, hole: nat)
    requires hole < |h|
  {
    forall i :: 0 < i < |h| && Parent(i) == hole && hole > 0 ==> h[Parent(hole)].f <= h[i].f
  }

  /** Ordered everywhere except that the item at `hole` may be smaller than its parent. */
  predicate OrderedAbove(h: seq<Item>, hole: nat) {
    hole < |h| && Bridged(h, hole) && forall i :: 0 < i < |h| && i != hole ==> Linked(h, i)
  }

  /** Ordered everywhere except that the item at `hole` may be larger than its children. */
  predicate OrderedBelow(h: seq<Item>, hole: nat) {
    hole < |h| && Bridged(h, hole) && forall i :: 0 < i < |h| && Parent(i) != hole ==> Linked(h, i)
  }

  function Swapped(h: seq<Item>, i: nat, j: nat): (r: seq<Item>)
    requires i < |h| && j < |h|
  {
    h[i := h[j]][j := h[i]]
  }

  lemma SwapKeepsItems(h: seq<Item>, i: nat, j: nat)
    requires i < j < |h|
    ensures multiset(Swapped(h, i, j)) == multiset(h)
  {
    assert h == h[..i] + [h[i]] + h[i + 1..j] + [h[j]] + h[j + 1..];
    assert Swapped(h, i, j) == h[..i] + [h[j]] + h[i + 1..j] + [h[i]] + h[j + 1..];
  }

  lemma {:induction false} RootIsLeast(h: seq<Item>, i: nat)
    requires HeapOrdered(h) && i < |h|
    ensures h[0].f <= h[i].f
    decreases i
  {
    if i > 0 {
      assert Linked(h, i);
      RootIsLeast(h, Parent(i));
    }
  }

  lemma RootIsLeastOfAll(h: seq<Item>)
    requires HeapOrdered(h) && h != []
    ensures forall e :: e in h ==> h[0].f <= e.f
  {
    forall e | e in h ensures h[0].f <= e.f {
      var k: nat :| k < |h| && h[k] == e;
      RootIsLeast(h, k);
    }
  }

  lemma SwapUp(h: seq<Item>, i: nat)
    requires 0 < i < |h| && OrderedAbove(h, i) && h[i].f < h[Parent(i)].f
    ensures OrderedAbove(Swapped(h, Parent(i), i), Parent(i))
  {
    var p := Parent(i);
    assert p > 0 ==> Linked(h, p);
    forall k | 0 < k < |h| && k != p ensures Linked(Swapped(h, p, i), k) {
      assert k != i ==> Linked(h, k);
    }
    assert forall k :: 0 < k < |h| && k != i ==> Linked(h, k);
    forall k | 0 < k < |h| && Parent(k) == p && p > 0 ensures h[Parent(p)].f <= Swapped(h, p, i)[k].f {
      assert k != i ==> Linked(h, k);
    }
  }

  lemma SwapDown(h: seq<Item>, i: nat, c: nat)
    requires i < c < |h| && Parent(c) == i && OrderedBelow(h, i) && h[c].f < h[i].f
    requires forall k :: i < k < |h| && Parent(k) == i ==> h[c].f <= h[k].f
    ensures OrderedBelow(Swapped(h, i, c), c)
  {
    forall k | 0 < k < |h| && Parent(k) != c ensures Linked(Swapped(h, i, c), k) {
      assert Parent(k) != i ==> Linked(h, k);
    }
    forall k | 0 < k < |h| && Parent(k) == c ensures h[c].f <= Swapped(h, i, c)[k].f {
      assert Linked(h, k);
    }
  }

  lemma AppendOrdered(h: seq<Item>, item: Item)
    requires HeapOrdered(h)
    ensures OrderedAbove(h + [item], |h|)
  {
    forall k | 0 < k < |h| ensures Linked(h + [item], k) { assert Linked(h, k); }
  }

  lemma ReplaceRootOrdered(h: seq<Item>, item: Item)
    requires HeapOrdered(h) && |h| > 1
    ensures OrderedBelow(h[..|h| - 1][0 := item], 0)
  {
    var r := h[..|h| - 1][0 := item];
    forall k | 0 < k < |r| && Parent(k) != 0 ensures Linked(r, k) { assert Linked(h, k); }
  }

  lemma ChildrenOf(i: nat)
    ensures Parent(2 * i + 1) == i && Parent(2 * i + 2) == i
    ensures forall k :: 0 < k && Parent(k) == i ==> k == 2 * i + 1 || k == 2 * i + 2
  {
  }

  lemma SettledBelow(h: seq<Item>, i: nat)
    requires OrderedBelow(h, i)
    requires forall k :: i < k < |h| && Parent(k) == i ==> h[i].f <= h[k].f
    ensures HeapOrdered(h)
  {
    forall k | 0 < k < |h| ensures Linked(h, k) {
      assert Parent(k) != i ==> Linked(h, k);
    }
  }

  class Heap {
    var items: seq<Item>

    constructor ()
      ensures items == []
    {
      items := [];
    }

    method Push(item: Item)
      requires HeapOrdered(items)
      modifies this
      ensures HeapOrdered(items)
      ensures multiset(items) == multiset(old(items)) + multiset{item}
    {
      AppendOrdered(items, item);
      items := items + [item];
      var i: nat := |items| - 1;
      while i > 0
        invariant OrderedAbove(items, i)
        invariant multiset(items) == multiset(old(items)) + multiset{item}
      {
        var parent: nat := Parent(i);
        if items[parent].f <= items[i].f { break; }
        SwapKeepsItems(items, parent, i);
        SwapUp(items, i);
        items := Swapped(items, parent, i);
        i := parent;
      }
    }

    method Pop() returns (top: Option<Item>)
      requires HeapOrdered(items)
      modifies this
      ensures HeapOrdered(items)
      ensures top.None? <==> old(items) == []
      ensures top.None? ==> items == []
      ensures top.Some? ==> multiset(old(items)) == multiset(items) + multiset{top.value}
      ensures top.Some? ==> forall e :: e in old(items) ==> top.value.f <= e.f
    {
      if items == [] { return None; }
      top := Some(items[0]);
      RootIsLeastOfAll(items);
      var n := |items| - 1;
      var last := items[n];
      assert items == items[..n] + [last];
      if n > 0 {
        ReplaceRootOrdered(items, last);
        assert items[..n] == [items[0]] + items[1..n];
        assert items[..n][0 := last] == [last] + items[1..n];
        items := items[..n][0 := last];
        SiftDown();
      } else {
        items := items[..n];
      }
    }

    method SiftDown()
      requires OrderedBelow(items, 0)
      modifies this
      ensures HeapOrdered(items) && multiset(items) == multiset(old(items))
    {
      var i: nat := 0;
      while true
        invariant 0 <= i < |items| && OrderedBelow(items, i)
        invariant multiset(items) == multiset(old(items))
        decreases |items| - i
      {
        var l, r := 2 * i + 1, 2 * i + 2;
        var smallest := i;
        if l < |items| && items[l].f < items[smallest].f { smallest := l; }
        if r < |items| && items[r].f < items[smallest].f { smallest := r; }
        ChildrenOf(i);
        assert forall k :: i < k < |items| && Parent(k) == i ==> items[smallest].f <= items[k].f;
        if smallest == i {
          SettledBelow(items, i);
          break;
        }
        SwapKeepsItems(items, i, smallest);
        SwapDown(items, i, smallest);
        items := Swapped(items, i, smallest);
        i := smallest;
      }
    }
  }
}
