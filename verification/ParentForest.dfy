/** Elements linked by parent ids, as they are declared. Ids may repeat: an element is its place in the list, and
whatever names a parent is a child of every element of that id. With unique ids, what hangs on a root is a tree. */
module ParentForest {
  import opened Wrappers

  /** An element, and the width its own label needs. */
  datatype Element = Element(id: Id, parent: Option<Id>, width: real)

  ghost predicate Unique(els: seq<Element>) { forall i, j :: 0 <= i < j < |els| ==> els[i].id != els[j].id }

  function IdSet(els: seq<Element>): set<Id> { set e | e in els :: e.id }

  function KidsUpTo(els: seq<Element>, parent: Option<Id>, n: nat): (r: seq<nat>)
    requires n <= |els|
    ensures forall k :: k in r <==> 0 <= k < n && els[k].parent == parent
    ensures forall i :: 0 <= i < |r| ==> r[i] < n
    ensures forall i, j :: 0 <= i < j < |r| ==> r[i] < r[j]
  {
    if n == 0 then []
    else
      var before := KidsUpTo(els, parent, n - 1);
      if els[n - 1].parent == parent then before + [n - 1] else before
  }

  /** The elements with this parent, in the order of the list. */
  function Kids(els: seq<Element>, parent: Option<Id>): (r: seq<nat>)
    ensures forall k :: k in r <==> 0 <= k < |els| && els[k].parent == parent
    ensures forall i :: 0 <= i < |r| ==> r[i] < |els|
    ensures forall i, j :: 0 <= i < j < |r| ==> r[i] < r[j]
  {
    KidsUpTo(els, parent, |els|)
  }

  // ---- Paths from a root ----

  type Path = seq<nat>

  /** A root, one of its children, one of that one's children, and so on. */
  ghost predicate IsPath(els: seq<Element>, path: Path) {
    && path != [] && (forall k :: 0 <= k < |path| ==> path[k] < |els|)
    && els[path[0]].parent == None
    && forall k :: 0 < k < |path| ==> els[path[k]].parent == Some(els[path[k - 1]].id)
  }

  function Last(path: Path): nat
    requires path != []
  {
    path[|path| - 1]
  }

  /** Element `i` hangs, through its parents, on a root. */
  ghost predicate Rooted(els: seq<Element>, i: nat) { exists path :: IsPath(els, path) && Last(path) == i }

  lemma PrefixIsPath(els: seq<Element>, path: Path, n: nat)
    requires IsPath(els, path) && 0 < n <= |path|
    ensures IsPath(els, path[..n])
  {
  }

  lemma ExtendPath(els: seq<Element>, path: Path, kid: nat)
    requires kid < |els|
    requires if path == [] then els[kid].parent == None
             else IsPath(els, path) && els[kid].parent == Some(els[Last(path)].id)
    ensures IsPath(els, path + [kid])
  {
  }

  lemma LastParent(els: seq<Element>, p: Path)
    requires IsPath(els, p)
    ensures els[Last(p)].parent == if |p| == 1 then None else Some(els[p[|p| - 2]].id)
  {
  }

  /** With unique ids each element has one path. */
  lemma {:induction false} PathIsUnique(els: seq<Element>, p: Path, q: Path)
    requires Unique(els) && IsPath(els, p) && IsPath(els, q) && Last(p) == Last(q)
    ensures p == q
    decreases |p|
  {
    LastParent(els, p);
    LastParent(els, q);
    if |p| > 1 {
      PrefixIsPath(els, p, |p| - 1);
      PrefixIsPath(els, q, |q| - 1);
      assert els[p[|p| - 2]].id == els[q[|q| - 2]].id;
      PathIsUnique(els, p[..|p| - 1], q[..|q| - 1]);
      assert p == p[..|p| - 1] + [Last(p)] && q == q[..|q| - 1] + [Last(q)];
    }
  }

  /** And no path meets an element twice. */
  lemma PathIsDistinct(els: seq<Element>, path: Path, i: nat, j: nat)
    requires Unique(els) && IsPath(els, path) && i < j < |path|
    ensures path[i] != path[j]
  {
    if path[i] == path[j] {
      PrefixIsPath(els, path, i + 1);
      PrefixIsPath(els, path, j + 1);
      PathIsUnique(els, path[..i + 1], path[..j + 1]);
    }
  }

  ghost function Below(n: nat): (r: set<nat>)
    ensures |r| == n && forall k :: k in r <==> 0 <= k < n
  {
    if n == 0 then {} else Below(n - 1) + {n - 1}
  }

  /** So a path is never longer than the list of elements: recursion along parents ends without a depth cap. */
  lemma PathIsShort(els: seq<Element>, path: Path)
    requires Unique(els) && IsPath(els, path)
    ensures |path| <= |els|
  {
    forall i, j | 0 <= i < j < |path| ensures path[i] != path[j] { PathIsDistinct(els, path, i, j); }
    DistinctFits(path, Below(|els|));
  }
}
