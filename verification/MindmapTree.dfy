/** Reading a mindmap's tree from indentation: the parent of a line is the nearest earlier line indented less. */
module MindmapTree {
  import opened Wrappers

  /** The last of the first `j` entries that is below `d`. */
  function NearestBelow(ind: seq<int>, j: nat, d: int): (r: Option<nat>)
    requires j <= |ind|
    ensures r.Some? ==> r.value < j && ind[r.value] < d && forall m :: r.value < m < j ==> ind[m] >= d
    ensures r.None? ==> forall m :: 0 <= m < j ==> ind[m] >= d
  {
    if j == 0 then None
    else if ind[j - 1] < d then Some(j - 1)
    else NearestBelow(ind, j - 1, d)
  }

  function Parent(ind: seq<int>, k: nat): (r: Option<nat>)
    requires k < |ind|
    ensures r.Some? ==> r.value < k
  {
    NearestBelow(ind, k, ind[k])
  }

  function Depth(ind: seq<int>, k: nat): nat
    requires k < |ind|
  {
    match Parent(ind, k)
    case None => 0
    case Some(p) => 1 + Depth(ind, p)
  }

  ghost predicate IsParent(ind: seq<int>, k: nat, p: Option<nat>)
    requires k < |ind|
  {
    match p
    case Some(y) => y < k && ind[y] < ind[k] && forall m :: y < m < k ==> ind[m] >= ind[k]
    case None => forall m :: 0 <= m < k ==> ind[m] >= ind[k]
  }

  lemma ParentIsUnique(ind: seq<int>, k: nat, p: Option<nat>)
    requires k < |ind|
    ensures IsParent(ind, k, p) <==> p == Parent(ind, k)
  {
  }

  // ---- The parser's stack ----

  datatype Frame = Frame(col: int, id: nat)

  /** The open ancestors of position `k`, outermost first. */
  ghost predicate IsChain(ind: seq<int>, k: nat, stack: seq<Frame>)
    requires k <= |ind|
  {
    && (forall i :: 0 <= i < |stack| ==> stack[i].id < k && stack[i].col == ind[stack[i].id])
    && (forall i, j :: 0 <= i < j < |stack| ==> stack[i].col < stack[j].col && stack[i].id < stack[j].id)
  }

  ghost predicate DepthsMatch(ind: seq<int>, stack: seq<Frame>) {
    forall i :: 0 <= i < |stack| ==> stack[i].id < |ind| && Depth(ind, stack[i].id) == i
  }

  /** Some frame at or after `m` is below `d`. */
  ghost predicate Covered(stack: seq<Frame>, m: nat, d: int) {
    exists i :: 0 <= i < |stack| && stack[i].id >= m && stack[i].col < d
  }

  /** No line before `k` that is below a bound `d <= limit` has been forgotten. */
  ghost predicate Covers(ind: seq<int>, k: nat, stack: seq<Frame>, limit: int)
    requires k <= |ind|
  {
    forall m, d {:trigger Covered(stack, m, d)} :: 0 <= m < k && ind[m] < d <= limit ==> Covered(stack, m, d)
  }

  ghost predicate CoversAll(ind: seq<int>, k: nat, stack: seq<Frame>)
    requires k <= |ind|
  {
    forall m, d {:trigger Covered(stack, m, d)} :: 0 <= m < k && ind[m] < d ==> Covered(stack, m, d)
  }

  lemma CoversAllUpTo(ind: seq<int>, k: nat, stack: seq<Frame>, limit: int)
    requires k <= |ind| && CoversAll(ind, k, stack)
    ensures Covers(ind, k, stack, limit)
  {
  }

  lemma TopIsLate(ind: seq<int>, k: nat, stack: seq<Frame>, m: nat)
    requires k < |ind| && IsChain(ind, k, stack) && Covers(ind, k, stack, ind[k])
    requires m < k && ind[m] < ind[k]
    ensures stack != [] && stack[|stack| - 1].id >= m
  {
    assert Covered(stack, m, ind[k]);
  }

  lemma ParentNotBefore(ind: seq<int>, k: nat, y: nat)
    requires y < k < |ind| && ind[y] < ind[k]
    ensures Parent(ind, k).Some? && Parent(ind, k).value >= y
  {
  }

  lemma TopIsParent(ind: seq<int>, k: nat, stack: seq<Frame>)
    requires k < |ind| && IsChain(ind, k, stack) && Covers(ind, k, stack, ind[k])
    requires stack != [] ==> stack[|stack| - 1].col < ind[k]
    ensures Parent(ind, k) == if stack == [] then None else Some(stack[|stack| - 1].id)
  {
    if stack != [] { ParentNotBefore(ind, k, stack[|stack| - 1].id); }
    if Parent(ind, k).Some? { TopIsLate(ind, k, stack, Parent(ind, k).value); }
  }

  lemma HeightIsDepth(ind: seq<int>, k: nat, stack: seq<Frame>)
    requires k < |ind| && DepthsMatch(ind, stack)
    requires Parent(ind, k) == if stack == [] then None else Some(stack[|stack| - 1].id)
    ensures Depth(ind, k) == |stack|
  {
  }

  lemma PopKeepsCover(ind: seq<int>, k: nat, stack: seq<Frame>, limit: int)
    requires k <= |ind| && stack != [] && Covers(ind, k, stack, limit) && stack[|stack| - 1].col >= limit
    ensures Covers(ind, k, stack[..|stack| - 1], limit)
  {
    var popped := stack[..|stack| - 1];
    forall m, d | 0 <= m < k && ind[m] < d <= limit ensures Covered(popped, m, d) {
      assert Covered(stack, m, d);
      var i :| 0 <= i < |stack| && stack[i].id >= m && stack[i].col < d;
      assert popped[i] == stack[i];
    }
  }

  lemma PushCovers(ind: seq<int>, k: nat, stack: seq<Frame>)
    requires k < |ind| && Covers(ind, k, stack, ind[k])
    ensures CoversAll(ind, k + 1, stack + [Frame(ind[k], k)])
  {
    var pushed := stack + [Frame(ind[k], k)];
    assert pushed[|stack|] == Frame(ind[k], k);
    forall m, d | 0 <= m < k + 1 && ind[m] < d ensures Covered(pushed, m, d) {
      if d <= ind[k] && m < k {
        assert Covered(stack, m, d);
        var i :| 0 <= i < |stack| && stack[i].id >= m && stack[i].col < d;
        assert pushed[i] == stack[i];
      }
    }
  }

  lemma PushChain(ind: seq<int>, k: nat, stack: seq<Frame>)
    requires k < |ind| && IsChain(ind, k, stack) && DepthsMatch(ind, stack) && Depth(ind, k) == |stack|
    requires stack != [] ==> stack[|stack| - 1].col < ind[k]
    ensures IsChain(ind, k + 1, stack + [Frame(ind[k], k)]) && DepthsMatch(ind, stack + [Frame(ind[k], k)])
  {
    var n, pushed := |stack|, stack + [Frame(ind[k], k)];
    forall i, j | 0 <= i < j < |pushed| ensures pushed[i].col < pushed[j].col && pushed[i].id < pushed[j].id {
      if j == n {
        assert i < n - 1 ==> stack[i].col < stack[n - 1].col;
      } else {
        assert stack[i].col < stack[j].col;
      }
    }
    forall i | 0 <= i < |pushed|
      ensures pushed[i].id < k + 1 && pushed[i].col == ind[pushed[i].id] && Depth(ind, pushed[i].id) == i
    {
      if i < n { assert Depth(ind, stack[i].id) == i; }
    }
  }

  /** Pops the frames that are not shallower than line `k`. */
  method PopTo(ind: seq<int>, k: nat, open: seq<Frame>) returns (stack: seq<Frame>)
    requires k < |ind| && IsChain(ind, k, open) && DepthsMatch(ind, open) && CoversAll(ind, k, open)
    ensures IsChain(ind, k, stack) && DepthsMatch(ind, stack) && Covers(ind, k, stack, ind[k])
    ensures stack != [] ==> stack[|stack| - 1].col < ind[k]
  {
    stack := open;
    CoversAllUpTo(ind, k, stack, ind[k]);
    while stack != [] && stack[|stack| - 1].col >= ind[k]
      invariant IsChain(ind, k, stack) && DepthsMatch(ind, stack) && Covers(ind, k, stack, ind[k])
    {
      PopKeepsCover(ind, k, stack, ind[k]);
      stack := stack[..|stack| - 1];
    }
  }

  /** The parser's pass over the node lines: each line pops the frames that are not shallower and takes the top as its
  parent and the stack height as its level. */
  method ReadTree(ind: seq<int>) returns (parents: seq<Option<nat>>, levels: seq<nat>)
    ensures |parents| == |levels| == |ind|
    ensures forall k :: 0 <= k < |ind| ==> parents[k] == Parent(ind, k) && levels[k] == Depth(ind, k)
  {
    parents, levels := [], [];
    var stack: seq<Frame> := [];
    for k := 0 to |ind|
      invariant |parents| == |levels| == k
      invariant forall i :: 0 <= i < k ==> parents[i] == Parent(ind, i) && levels[i] == Depth(ind, i)
      invariant IsChain(ind, k, stack) && DepthsMatch(ind, stack) && CoversAll(ind, k, stack)
    {
      stack := PopTo(ind, k, stack);
      TopIsParent(ind, k, stack);
      HeightIsDepth(ind, k, stack);
      parents := parents + [if stack == [] then None else Some(stack[|stack| - 1].id)];
      levels := levels + [|stack|];
      PushChain(ind, k, stack);
      PushCovers(ind, k, stack);
      stack := stack + [Frame(ind[k], k)];
    }
  }
}
