/** Which elements a placement from the roots down reaches, and that it reaches them all. */
module Reach {
  import opened Wrappers
  import opened ParentForest
  import opened Nesting

  /** A path none of whose elements, but perhaps the last, is closed: one that does not show what is in it. */
  ghost predicate Reached(els: seq<Element>, closed: set<Id>, path: Path) {
    IsPath(els, path) && forall k :: 0 <= k < |path| - 1 ==> els[path[k]].id !in closed
  }

  /** What stands as parent in the children of a container: nothing at the top. */
  function Key(els: seq<Element>, path: Path): Option<Id>
    requires path == [] || Last(path) < |els|
  {
    if path == [] then None else Some(els[Last(path)].id)
  }

  function KidsOf(els: seq<Element>, path: Path): (r: seq<nat>)
    requires path == [] || Last(path) < |els|
    ensures Ascending(r) && Distinct(r)
  {
    Kids(els, Key(els, path))
  }

  /** A container whose children are placed: all there is, or an element that is reached and open. */
  ghost predicate Opened(els: seq<Element>, closed: set<Id>, path: Path) {
    path == [] || (Reached(els, closed, path) && els[Last(path)].id !in closed)
  }

  /** Exactly what is reached under `path` is placed. */
  ghost predicate Complete(els: seq<Element>, closed: set<Id>, placed: seq<Placed>, path: Path) {
    forall q :: HasPath(placed, q) <==> Reached(els, closed, q) && IsPrefix(path, q)
  }

  /** Exactly what is reached under the first `n` children is placed. */
  ghost predicate CompleteKids(els: seq<Element>, closed: set<Id>, placed: seq<Placed>, path: Path, kids: seq<nat>,
                               n: nat)
    requires n <= |kids|
  {
    forall q :: HasPath(placed, q) <==> Reached(els, closed, q) && UnderKids(q, path, kids, n)
  }

  /** Exactly what is reached strictly under `path` is placed. */
  ghost predicate AllBelow(els: seq<Element>, closed: set<Id>, placed: seq<Placed>, path: Path) {
    forall q :: HasPath(placed, q) <==> Reached(els, closed, q) && IsPrefix(path, q) && q != path
  }

  lemma AddKidComplete(els: seq<Element>, closed: set<Id>, placed: seq<Placed>, more: seq<Placed>, path: Path,
                       kids: seq<nat>, n: nat)
    requires n < |kids| && CompleteKids(els, closed, placed, path, kids, n)
    requires Complete(els, closed, more, path + [kids[n]])
    ensures CompleteKids(els, closed, placed + more, path, kids, n + 1)
  {
    hide Reached, IsPrefix;
    forall q ensures HasPath(placed + more, q) <==> Reached(els, closed, q) && UnderKids(q, path, kids, n + 1) {
      assert HasPath(placed + more, q) <==> HasPath(placed, q) || HasPath(more, q);
      assert UnderKids(q, path, kids, n + 1) <==> UnderKids(q, path, kids, n) || IsPrefix(path + [kids[n]], q);
    }
  }

  lemma KidReached(els: seq<Element>, closed: set<Id>, path: Path, kid: nat)
    requires Opened(els, closed, path) && kid in KidsOf(els, path)
    ensures kid < |els| && Reached(els, closed, path + [kid])
  {
    ExtendPath(els, path, kid);
    var q := path + [kid];
    forall k | 0 <= k < |q| - 1 ensures els[q[k]].id !in closed { assert q[k] == path[k]; }
  }

  /** What is reached under a path starts with it, so it goes on only from an open element to one of its children. */
  lemma GoesOn(els: seq<Element>, closed: set<Id>, path: Path, q: Path)
    requires path == [] || Last(path) < |els|
    requires Reached(els, closed, q) && IsPrefix(path, q) && q != path
    ensures path != [] ==> els[Last(path)].id !in closed
    ensures UnderKids(q, path, KidsOf(els, path), |KidsOf(els, path)|)
  {
    LongerPath(path, q);
    var n := |path|;
    if n > 0 { assert q[n - 1] == q[..n][n - 1] == Last(path); }
    var kids := KidsOf(els, path);
    var m :| 0 <= m < |kids| && kids[m] == q[n];
    assert q[..n + 1] == q[..n] + [q[n]];
  }

  /** An element that shows no children is all there is to place. */
  lemma LeafComplete(els: seq<Element>, closed: set<Id>, p: Placed)
    requires Reached(els, closed, p.path)
    requires KidsOf(els, p.path) == [] || els[Last(p.path)].id in closed
    ensures Complete(els, closed, [p], p.path)
  {
    assert IsPrefix(p.path, p.path);
    forall q ensures HasPath([p], q) <==> Reached(els, closed, q) && IsPrefix(p.path, q) {
      if Reached(els, closed, q) && IsPrefix(p.path, q) && q != p.path { GoesOn(els, closed, p.path, q); }
      if q == p.path { assert p in [p]; }
    }
  }

  /** What is placed for the children is what is reached under the container. */
  lemma KidsAreAll(els: seq<Element>, closed: set<Id>, placed: seq<Placed>, path: Path, kids: seq<nat>)
    requires path == [] || Last(path) < |els|
    requires kids == KidsOf(els, path) && CompleteKids(els, closed, placed, path, kids, |kids|)
    ensures AllBelow(els, closed, placed, path)
  {
    forall q ensures HasPath(placed, q) <==> Reached(els, closed, q) && IsPrefix(path, q) && q != path {
      if Reached(els, closed, q) && IsPrefix(path, q) && q != path { GoesOn(els, closed, path, q); }
      if UnderKids(q, path, kids, |kids|) {
        var m :| 0 <= m < |kids| && IsPrefix(path + [kids[m]], q);
        ShorterPrefix(path, kids[m], q);
      }
    }
  }

  lemma AroundComplete(els: seq<Element>, closed: set<Id>, inner: seq<Placed>, p: Placed)
    requires Reached(els, closed, p.path) && AllBelow(els, closed, inner, p.path)
    ensures Complete(els, closed, inner + [p], p.path)
  {
    var all := inner + [p];
    assert IsPrefix(p.path, p.path);
    forall q ensures HasPath(all, q) <==> Reached(els, closed, q) && IsPrefix(p.path, q) {
      assert HasPath(all, q) <==> HasPath(inner, q) || q == p.path by { assert p in all; }
    }
  }
}
