/** Collapsing groups of a cloud diagram: what the walk up hides, and what the placement down reaches. An id may be
declared more than once: looked up by id the last declaration counts, while every one of them is a child of its own
parent. */
module CloudCollapse {
  import opened Wrappers
  import opened ParentForest
  import opened Ancestors
  import opened Nesting
  import opened Reach

  // ---- Looking up ids ----

  function FindLast(els: seq<Element>, id: Id): (r: Option<Element>)
    ensures r.Some? ==> r.value in els && r.value.id == id
    ensures r.None? ==> forall e :: e in els ==> e.id != id
  {
    if els == [] then None
    else if els[|els| - 1].id == id then Some(els[|els| - 1])
    else FindLast(els[..|els| - 1], id)
  }

  /** The parent of each id, where its last declaration has one. */
  function ParentMap(els: seq<Element>): map<Id, Id> {
    if els == [] then map[]
    else
      var before, e := ParentMap(els[..|els| - 1]), els[|els| - 1];
      if e.parent.Some? then before[e.id := e.parent.value] else before - {e.id}
  }

  lemma {:induction false} ParentMapIs(els: seq<Element>, id: Id)
    ensures var e := FindLast(els, id);
            if e.Some? && e.value.parent.Some? then id in ParentMap(els) && ParentMap(els)[id] == e.value.parent.value
            else id !in ParentMap(els)
  {
    if els != [] { ParentMapIs(els[..|els| - 1], id); }
  }

  // ---- Bottom up: anchors ----

  /** The last of these that is collapsed, or `anchor` when none is. */
  function LastIn(ids: seq<Id>, collapsed: set<Id>, anchor: Id): Id {
    if ids == [] then anchor else LastIn(ids[1..], collapsed, if ids[0] in collapsed then ids[0] else anchor)
  }

  /** The outermost collapsed ancestor, or the element itself. */
  ghost function Anchor(els: seq<Element>, collapsed: set<Id>, id: Id): Id
    requires WalkEnds(ParentMap(els), id)
  {
    LastIn(Chain(ParentMap(els), id)[1..], collapsed, id)
  }

  ghost function Above(els: seq<Element>, id: Id): set<Id>
    requires WalkEnds(ParentMap(els), id)
  {
    set a | a in Chain(ParentMap(els), id)[1..]
  }

  lemma ChainStep(els: seq<Element>, id: Id)
    requires WalkEnds(ParentMap(els), id) && id in ParentMap(els)
    ensures WalkEnds(ParentMap(els), ParentMap(els)[id])
    ensures Chain(ParentMap(els), id)[1..] == Chain(ParentMap(els), ParentMap(els)[id])
    ensures Above(els, id) == {ParentMap(els)[id]} + Above(els, ParentMap(els)[id])
  {
    ParentIsCloser(ParentMap(els), id);
    var chain := Chain(ParentMap(els), ParentMap(els)[id]);
    assert chain == [chain[0]] + chain[1..];
  }

  /** Walks up the parents, remembering the last collapsed one. */
  method AnchorOf(els: seq<Element>, collapsed: set<Id>, id: Id) returns (anchor: Id)
    requires WalkEnds(ParentMap(els), id)
    ensures anchor == Anchor(els, collapsed, id)
  {
    var cur := FindLast(els, id);
    anchor := id;
    ghost var at := id;
    while cur.Some? && cur.value.parent.Some?
      invariant WalkEnds(ParentMap(els), at) && cur == FindLast(els, at)
      invariant LastIn(Chain(ParentMap(els), at)[1..], collapsed, anchor) == Anchor(els, collapsed, id)
      decreases Steps(ParentMap(els), at)
    {
      ParentMapIs(els, at);
      ParentIsCloser(ParentMap(els), at);
      ChainStep(els, at);
      var parent := cur.value.parent.value;
      if parent in collapsed { anchor := parent; }
      cur, at := FindLast(els, parent), parent;
    }
    ParentMapIs(els, at);
  }

  lemma {:induction false} LastInNone(ids: seq<Id>, collapsed: set<Id>, anchor: Id)
    requires forall x :: x in ids ==> x !in collapsed
    ensures LastIn(ids, collapsed, anchor) == anchor
  {
    if ids != [] { LastInNone(ids[1..], collapsed, anchor); }
  }

  lemma {:induction false} LastInSome(ids: seq<Id>, collapsed: set<Id>, anchor: Id) returns (k: nat)
    requires exists x :: x in ids && x in collapsed
    ensures k < |ids| && ids[k] in collapsed && LastIn(ids, collapsed, anchor) == ids[k]
    ensures forall m :: k < m < |ids| ==> ids[m] !in collapsed
  {
    var next := if ids[0] in collapsed then ids[0] else anchor;
    if exists x :: x in ids[1..] && x in collapsed {
      k := LastInSome(ids[1..], collapsed, next);
      k := k + 1;
    } else {
      LastInNone(ids[1..], collapsed, next);
      k := 0;
      forall m | 0 < m < |ids| ensures ids[m] !in collapsed { assert ids[m] == ids[1..][m - 1]; }
    }
  }

  /** An element is its own anchor exactly when no ancestor is collapsed. */
  lemma OwnAnchorExactly(els: seq<Element>, collapsed: set<Id>, id: Id)
    requires WalkEnds(ParentMap(els), id)
    ensures Anchor(els, collapsed, id) == id <==> Above(els, id) !! collapsed
    ensures Anchor(els, collapsed, id) == id || Anchor(els, collapsed, id) in Above(els, id)
  {
    var chain := Chain(ParentMap(els), id);
    if Above(els, id) !! collapsed {
      LastInNone(chain[1..], collapsed, id);
    } else {
      var x :| x in Above(els, id) && x in collapsed;
      var k := LastInSome(chain[1..], collapsed, id);
      ChainIsDistinct(ParentMap(els), id, 0, k + 1);
    }
  }

  lemma NoneAfter(chain: seq<Id>, collapsed: set<Id>, k: nat)
    requires k < |chain| && forall m :: k < m < |chain| ==> chain[m] !in collapsed
    ensures forall x :: x in chain[k..][1..] ==> x !in collapsed
  {
    assert chain[k..][1..] == chain[k + 1..];
  }

  /** An anchor is its own anchor. */
  lemma AnchorIsOwnAnchor(els: seq<Element>, collapsed: set<Id>, id: Id)
    requires WalkEnds(ParentMap(els), id)
    ensures WalkEnds(ParentMap(els), Anchor(els, collapsed, id))
    ensures Anchor(els, collapsed, Anchor(els, collapsed, id)) == Anchor(els, collapsed, id)
  {
    OwnAnchorExactly(els, collapsed, id);
    var chain := Chain(ParentMap(els), id);
    if Anchor(els, collapsed, id) != id {
      hide LastIn, ParentMap, Chain;
      var x :| x in Above(els, id) && x in collapsed;
      var k := LastInSome(chain[1..], collapsed, id);
      ChainFrom(ParentMap(els), id, k + 1);
      forall m | k + 1 < m < |chain| ensures chain[m] !in collapsed { assert chain[m] == chain[1..][m - 1]; }
      NoneAfter(chain, collapsed, k + 1);
      LastInNone(chain[k + 1..][1..], collapsed, chain[k + 1]);
    }
  }

  // ---- Top down: what is placed ----

  ghost predicate WayTo(els: seq<Element>, path: Path, id: Id) { IsPath(els, path) && els[Last(path)].id == id }

  /** The ids a path goes through before its end. */
  ghost function Passed(els: seq<Element>, path: Path): set<Id>
    requires IsPath(els, path)
  {
    set k | 0 <= k < |path| - 1 :: els[path[k]].id
  }

  lemma ReachedExactly(els: seq<Element>, collapsed: set<Id>, path: Path)
    requires IsPath(els, path)
    ensures Reached(els, collapsed, path) <==> Passed(els, path) !! collapsed
  {
    if Passed(els, path) !! collapsed {
      forall k | 0 <= k < |path| - 1 ensures els[path[k]].id !in collapsed {
        assert els[path[k]].id in Passed(els, path);
      }
    }
  }

  /** A box is placed for `id`: one of its declarations is reached. */
  ghost predicate HasBox(els: seq<Element>, collapsed: set<Id>, id: Id) {
    exists q :: Reached(els, collapsed, q) && els[Last(q)].id == id
  }

  lemma HasBoxExactly(els: seq<Element>, collapsed: set<Id>, id: Id)
    ensures HasBox(els, collapsed, id) <==> exists p :: WayTo(els, p, id) && Passed(els, p) !! collapsed
  {
    if HasBox(els, collapsed, id) {
      var q :| Reached(els, collapsed, q) && els[Last(q)].id == id;
      ReachedExactly(els, collapsed, q);
      assert WayTo(els, q, id);
    }
    if p :| WayTo(els, p, id) && Passed(els, p) !! collapsed { ReachedExactly(els, collapsed, p); }
  }

  // ---- When they agree ----

  /** Whatever is collapsed, `id` is placed exactly when it is not hidden. */
  ghost predicate AgreesAlways(els: seq<Element>, id: Id)
    requires WalkEnds(ParentMap(els), id)
  {
    forall collapsed: set<Id> :: AgreesOn(els, collapsed, id)
  }

  ghost predicate AgreesOn(els: seq<Element>, collapsed: set<Id>, id: Id)
    requires WalkEnds(ParentMap(els), id)
  {
    HasBox(els, collapsed, id) <==> Anchor(els, collapsed, id) == id
  }

  /** Every way from a root to any of its declarations goes through each ancestor of the last one. */
  ghost predicate AllWaysPass(els: seq<Element>, id: Id)
    requires WalkEnds(ParentMap(els), id)
  {
    forall p :: WayTo(els, p, id) ==> Above(els, id) <= Passed(els, p)
  }

  ghost predicate SomeWayPassesNoMore(els: seq<Element>, id: Id)
    requires WalkEnds(ParentMap(els), id)
  {
    exists p :: WayTo(els, p, id) && Passed(els, p) <= Above(els, id)
  }

  lemma AgreeIfWaysPass(els: seq<Element>, collapsed: set<Id>, id: Id)
    requires WalkEnds(ParentMap(els), id) && AllWaysPass(els, id) && SomeWayPassesNoMore(els, id)
    ensures AgreesOn(els, collapsed, id)
  {
    HasBoxExactly(els, collapsed, id);
    OwnAnchorExactly(els, collapsed, id);
    hide HasBox, Anchor;
    if Above(els, id) !! collapsed {
      var p :| WayTo(els, p, id) && Passed(els, p) <= Above(els, id);
      assert Passed(els, p) !! collapsed;
    }
  }

  lemma PassedAreIds(els: seq<Element>, path: Path)
    requires IsPath(els, path)
    ensures Passed(els, path) <= IdSet(els)
  {
    forall k | 0 <= k < |path| - 1 ensures els[path[k]].id in IdSet(els) { assert els[path[k]] in els; }
  }

  /** Placement and hiding agree on an id, whatever is collapsed, exactly when every way to a declaration of it goes
  through the ancestors of the last one, and some way through no other. */
  lemma AgreeExactly(els: seq<Element>, id: Id)
    requires WalkEnds(ParentMap(els), id)
    ensures AgreesAlways(els, id) <==> AllWaysPass(els, id) && SomeWayPassesNoMore(els, id)
  {
    hide HasBox, Anchor, Above, Passed;
    if AgreesAlways(els, id) {
      var others := IdSet(els) - Above(els, id);
      assert AgreesOn(els, others, id);
      HasBoxExactly(els, others, id);
      OwnAnchorExactly(els, others, id);
      var p :| WayTo(els, p, id) && Passed(els, p) !! others;
      PassedAreIds(els, p);
      assert Passed(els, p) <= Above(els, id);
      forall q | WayTo(els, q, id) ensures Above(els, id) <= Passed(els, q) {
        var missed := Above(els, id) - Passed(els, q);
        assert AgreesOn(els, missed, id);
        HasBoxExactly(els, missed, id);
        OwnAnchorExactly(els, missed, id);
      }
    } else {
      if AllWaysPass(els, id) && SomeWayPassesNoMore(els, id) {
        forall collapsed: set<Id> ensures AgreesOn(els, collapsed, id) { AgreeIfWaysPass(els, collapsed, id); }
      }
    }
  }

  // ---- Ids whose last declarations hang on a root ----

  ghost predicate LastDeclared(els: seq<Element>, path: Path)
    requires IsPath(els, path)
  {
    forall k :: 0 <= k < |path| ==> FindLast(els, els[path[k]].id) == Some(els[path[k]])
  }

  /** The last declaration of `id`, that of its parent, and so on, hang on a root. */
  ghost predicate Hangs(els: seq<Element>, id: Id) { exists p :: WayTo(els, p, id) && LastDeclared(els, p) }

  lemma PassedStep(els: seq<Element>, path: Path)
    requires IsPath(els, path) && |path| > 1
    ensures IsPath(els, path[..|path| - 1]) && els[path[|path| - 2]].id == els[Last(path[..|path| - 1])].id
    ensures Passed(els, path) == Passed(els, path[..|path| - 1]) + {els[path[|path| - 2]].id}
  {
    var n := |path| - 1;
    PrefixIsPath(els, path, n);
    forall x | x in Passed(els, path) ensures x in Passed(els, path[..n]) + {els[path[n - 1]].id} {
      var k :| 0 <= k < n && x == els[path[k]].id;
      if k < n - 1 { assert path[..n][k] == path[k]; }
    }
    forall x | x in Passed(els, path[..n]) + {els[path[n - 1]].id} ensures x in Passed(els, path) {
      if x in Passed(els, path[..n]) {
        var k :| 0 <= k < n - 1 && x == els[path[..n][k]].id;
        assert path[..n][k] == path[k];
      }
    }
  }

  /** Along a path of last declarations, what is passed is what the walk up passes. */
  lemma {:induction false} LastPathIsWalk(els: seq<Element>, path: Path)
    requires IsPath(els, path) && LastDeclared(els, path)
    ensures WalkEnds(ParentMap(els), els[Last(path)].id) && Above(els, els[Last(path)].id) == Passed(els, path)
    decreases |path|
  {
    var id := els[Last(path)].id;
    LastParent(els, path);
    ParentMapIs(els, id);
    if |path| == 1 {
      assert Up(ParentMap(els), id, 1).None?;
    } else {
      PassedStep(els, path);
      LastPathIsWalk(els, path[..|path| - 1]);
      var parent := els[path[|path| - 2]].id;
      var n: nat :| Up(ParentMap(els), parent, n).None?;
      assert Up(ParentMap(els), id, n + 1).None?;
      ChainStep(els, id);
    }
  }

  lemma HangsWalks(els: seq<Element>, id: Id) returns (p: Path)
    requires Hangs(els, id)
    ensures WayTo(els, p, id) && LastDeclared(els, p)
    ensures WalkEnds(ParentMap(els), id) && Passed(els, p) == Above(els, id)
  {
    p :| WayTo(els, p, id) && LastDeclared(els, p);
    LastPathIsWalk(els, p);
  }

  /** Where an element hangs, so do its ancestors, its anchor among them. */
  lemma AnchorHangs(els: seq<Element>, collapsed: set<Id>, id: Id)
    requires Hangs(els, id) && WalkEnds(ParentMap(els), id)
    ensures Hangs(els, Anchor(els, collapsed, id))
  {
    var p := HangsWalks(els, id);
    OwnAnchorExactly(els, collapsed, id);
    hide Anchor;
    var a := Anchor(els, collapsed, id);
    if a != id {
      var k :| 0 <= k < |p| - 1 && els[p[k]].id == a;
      PrefixIsPath(els, p, k + 1);
      assert WayTo(els, p[..k + 1], a) && LastDeclared(els, p[..k + 1]);
    }
  }

  /** An element that hangs on a root is placed unless it is hidden. */
  lemma UnhiddenIsPlaced(els: seq<Element>, collapsed: set<Id>, id: Id)
    requires Hangs(els, id) && WalkEnds(ParentMap(els), id) && Anchor(els, collapsed, id) == id
    ensures HasBox(els, collapsed, id)
  {
    var p := HangsWalks(els, id);
    OwnAnchorExactly(els, collapsed, id);
    HasBoxExactly(els, collapsed, id);
  }

  /** The anchor of an element that hangs on a root is placed and is its own anchor. Placement and hiding agree on the
  element, whatever is collapsed, exactly when every way to any of its declarations goes through all ancestors of the
  last one. */
  lemma CollapseIsConsistent(els: seq<Element>, collapsed: set<Id>, id: Id)
    requires Hangs(els, id) && WalkEnds(ParentMap(els), id)
    ensures var a := Anchor(els, collapsed, id);
            WalkEnds(ParentMap(els), a) && Anchor(els, collapsed, a) == a && HasBox(els, collapsed, a)
    ensures AgreesAlways(els, id) <==> AllWaysPass(els, id)
  {
    AnchorIsOwnAnchor(els, collapsed, id);
    AnchorHangs(els, collapsed, id);
    UnhiddenIsPlaced(els, collapsed, Anchor(els, collapsed, id));
    var p := HangsWalks(els, id);
    assert SomeWayPassesNoMore(els, id);
    AgreeExactly(els, id);
  }

  // ---- Unique ids ----

  lemma {:induction false} UniqueIsLast(els: seq<Element>, i: nat)
    requires Unique(els) && i < |els|
    ensures FindLast(els, els[i].id) == Some(els[i])
  {
    var e := FindLast(els, els[i].id).value;
    var j :| 0 <= j < |els| && els[j] == e;
    if i < j { assert els[i].id != els[j].id; }
    if j < i { assert els[j].id != els[i].id; }
  }

  lemma SameIdSameElement(els: seq<Element>, i: nat, j: nat)
    requires Unique(els) && i < |els| && j < |els| && els[i].id == els[j].id
    ensures i == j
  {
  }

  /** With unique ids they agree on every element that has a path from a root, whatever is collapsed. */
  lemma UniqueAgrees(els: seq<Element>, path: Path)
    requires Unique(els) && IsPath(els, path)
    ensures var id := els[Last(path)].id; Hangs(els, id) && WalkEnds(ParentMap(els), id) && AgreesAlways(els, id)
  {
    var id := els[Last(path)].id;
    forall k | 0 <= k < |path| ensures FindLast(els, els[path[k]].id) == Some(els[path[k]]) {
      UniqueIsLast(els, path[k]);
    }
    assert WayTo(els, path, id) && LastDeclared(els, path);
    LastPathIsWalk(els, path);
    forall p | WayTo(els, p, id) ensures Above(els, id) <= Passed(els, p) {
      SameIdSameElement(els, Last(p), Last(path));
      PathIsUnique(els, p, path);
    }
    CollapseIsConsistent(els, {}, id);
  }

  // ---- Inputs on which the walk does not end, or the two part ----

  lemma OneMoreParent(els: seq<Element>, e: Element)
    ensures ParentMap(els + [e]) ==
            if e.parent.Some? then ParentMap(els)[e.id := e.parent.value] else ParentMap(els) - {e.id}
  {
    assert (els + [e])[..|els|] == els;
  }

  /** An element nested in its twin: the walk from it never ends. */
  lemma TwinInTwin(els: seq<Element>)
    requires els == [Element("a", None, 80.0), Element("a", Some("a"), 80.0)]
    ensures !WalkEnds(ParentMap(els), "a")
  {
    OneMoreParent([els[0]], els[1]);
    OneGoesRound(ParentMap(els), "a");
  }

  /** Two elements that are each other's parents. */
  lemma EachInTheOther(els: seq<Element>)
    requires els == [Element("a", Some("b"), 80.0), Element("b", Some("a"), 80.0)]
    ensures !WalkEnds(ParentMap(els), "a") && !WalkEnds(ParentMap(els), "b")
  {
    OneMoreParent([], els[0]);
    OneMoreParent([els[0]], els[1]);
    assert [] + [els[0]] == [els[0]] && [els[0]] + [els[1]] == els;
    TwoGoRound(ParentMap(els), "a", "b");
  }

  const GROUPS := [Element("A", None, 80.0), Element("B", None, 80.0)]

  /** A leaf declared in two groups. */
  const TWINS := GROUPS + [Element("x", Some("A"), 80.0)] + [Element("x", Some("B"), 80.0)]

  lemma TwinsWalk()
    ensures ParentMap(TWINS) == map["x" := "B"]
    ensures forall id :: WalkEnds(ParentMap(TWINS), id)
    ensures Chain(ParentMap(TWINS), "x") == ["x", "B"]
  {
    OneMoreParent([], GROUPS[0]);
    OneMoreParent([GROUPS[0]], GROUPS[1]);
    assert GROUPS == [GROUPS[0]] + [GROUPS[1]];
    OneMoreParent(GROUPS, Element("x", Some("A"), 80.0));
    OneMoreParent(GROUPS + [Element("x", Some("A"), 80.0)], Element("x", Some("B"), 80.0));
    var up := ParentMap(TWINS);
    forall id ensures WalkEnds(up, id) { assert Up(up, id, 2).None?; }
  }

  /** With the second group collapsed its leaf is hidden, although the first group is open and shows it. */
  lemma TwinHiddenYetPlaced()
    ensures WalkEnds(ParentMap(TWINS), "x") && Hangs(TWINS, "x")
    ensures HasBox(TWINS, {"B"}, "x") && Anchor(TWINS, {"B"}, "x") == "B"
  {
    TwinsWalk();
    assert WayTo(TWINS, [1, 3], "x") && LastDeclared(TWINS, [1, 3]);
    assert Reached(TWINS, {"B"}, [0, 2]);
    assert ["x", "B"][1..] == ["B"] && ["B"][1..] == [];
  }
}
