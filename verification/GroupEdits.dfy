/** Dissolving a group, and walking up from a node to the groups around it. */
module GroupEdits {
  import opened Wrappers
  import opened Groups

  // ---- Single-group edits ----

  /** The groups other than `id` are as they were. */
  ghost predicate OthersKept(gs: GroupMap, r: GroupMap, id: Id) {
    forall k :: k != id ==> (k in r.at <==> k in gs.at) && (k in gs.at ==> r.at[k] == gs.at[k])
  }

  function WithGroup(gs: GroupMap, g: Group): (r: GroupMap)
    ensures OthersKept(gs, r, g.id) && g.id in r.at && r.at[g.id] == g
  {
    GroupMap(if g.id in gs.at then gs.keys else gs.keys + [g.id], gs.at[g.id := g])
  }

  function WithLock(gs: GroupMap, id: Id, locked: bool): (r: GroupMap)
    ensures OthersKept(gs, r, id) && r.keys == gs.keys && r.at.Keys == gs.at.Keys
    ensures id in gs.at ==> r.at[id] == Group(gs.at[id].id, gs.at[id].caption, gs.at[id].members, locked)
  {
    if id !in gs.at then gs else gs.(at := gs.at[id := gs.at[id].(locked := locked)])
  }

  function WithCaption(gs: GroupMap, id: Id, caption: string): (r: GroupMap)
    ensures OthersKept(gs, r, id) && r.keys == gs.keys && r.at.Keys == gs.at.Keys
    ensures id in gs.at ==> r.at[id] == Group(gs.at[id].id, caption, gs.at[id].members, gs.at[id].locked)
  {
    if id !in gs.at then gs else gs.(at := gs.at[id := gs.at[id].(caption := caption)])
  }

  // ---- Dissolving ----

  /** The members with every reference to `d` replaced by `freed`. */
  function Flattened(ms: seq<Member>, d: Id, freed: seq<Member>): seq<Member> {
    if ms == [] then []
    else (if ms[0] == Sub(d) then freed else [ms[0]]) + Flattened(ms[1..], d, freed)
  }

  function Without(keys: seq<Id>, d: Id): (r: seq<Id>)
    ensures forall k :: k in r <==> k in keys && k != d
  {
    if keys == [] then [] else (if keys[0] == d then [] else [keys[0]]) + Without(keys[1..], d)
  }

  function Ungroup(gs: GroupMap, d: Id): GroupMap {
    if d !in gs.at then gs
    else
      var rest := gs.at - {d};
      match ParentOf(gs, Sub(d))
      case None => GroupMap(Without(gs.keys, d), rest)
      case Some(p) =>
        if p !in rest then GroupMap(Without(gs.keys, d), rest)
        else
          var g := rest[p];
          GroupMap(Without(gs.keys, d), rest[p := g.(members := Flattened(g.members, d, gs.at[d].members))])
  }

  lemma {:induction false} FlattenedHas(ms: seq<Member>, d: Id, freed: seq<Member>, m: Member)
    ensures m in Flattened(ms, d, freed) <==> (m in ms && m != Sub(d)) || (Sub(d) in ms && m in freed)
  {
    if ms != [] { FlattenedHas(ms[1..], d, freed, m); }
  }

  lemma {:induction false} FlattenedWithout(ms: seq<Member>, d: Id, freed: seq<Member>)
    requires Sub(d) !in ms
    ensures Flattened(ms, d, freed) == ms
  {
    if ms != [] { FlattenedWithout(ms[1..], d, freed); }
  }

  lemma MembersAfter(gs: GroupMap, d: Id, x: Id)
    requires WellKeyed(gs) && d in gs.at && x in gs.at && x != d && SoleParent(gs, Sub(d))
    ensures x in Ungroup(gs, d).at
    ensures Ungroup(gs, d).at[x] == gs.at[x].(members := Flattened(gs.at[x].members, d, gs.at[d].members))
  {
    ParentLists(gs, Sub(d));
    if Sub(d) !in gs.at[x].members {
      FlattenedWithout(gs.at[x].members, d, gs.at[d].members);
    } else {
      assert Lists(gs, x, Sub(d));
    }
  }

  lemma KeysAfter(gs: GroupMap, d: Id)
    ensures Ungroup(gs, d).at.Keys == gs.at.Keys - {d}
  {
  }

  lemma RankedAfter(gs: GroupMap, rank: map<Id, nat>, d: Id)
    requires WellKeyed(gs) && Ranked(gs, rank) && d in gs.at && SoleParent(gs, Sub(d))
    ensures Ranked(Ungroup(gs, d), rank)
  {
    KeysAfter(gs, d);
    forall g, m | Lists(Ungroup(gs, d), g, m) && m.Sub? && m.id in Ungroup(gs, d).at ensures rank[m.id] < rank[g] {
      MembersAfter(gs, d, g);
      FlattenedHas(gs.at[g].members, d, gs.at[d].members, m);
      if m in gs.at[g].members { assert Lists(gs, g, m); } else { assert Lists(gs, d, m) && Lists(gs, g, Sub(d)); }
    }
  }

  lemma FreedBelow(gs: GroupMap, rank: map<Id, nat>, d: Id, bound: nat)
    requires Ranked(gs, rank) && d in gs.at && rank[d] <= bound
    ensures Below(gs, rank, gs.at[d].members, bound) && Sub(d) !in gs.at[d].members
  {
    MembersBelow(gs, rank, d);
    assert Lists(gs, d, Sub(d)) <==> Sub(d) in gs.at[d].members;
  }

  lemma StillBelow(gs: GroupMap, rank: map<Id, nat>, d: Id, ms: seq<Member>, bound: nat)
    requires Below(gs, rank, ms, bound)
    ensures Below(Ungroup(gs, d), rank, ms, bound)
  {
    KeysAfter(gs, d);
  }

  /** Every other group keeps its leaves, in order. */
  lemma {:induction false} DissolveKeepsLeaves(gs: GroupMap, rank: map<Id, nat>, d: Id, x: Id)
    requires WellKeyed(gs) && Ranked(gs, rank) && d in gs.at && SoleParent(gs, Sub(d))
    requires x in gs.at && x != d
    ensures Ranked(Ungroup(gs, d), rank) && x in Ungroup(gs, d).at
    ensures Leaves(Ungroup(gs, d), rank, x) == Leaves(gs, rank, x)
    decreases rank[x], |gs.at[x].members| + 1
  {
    RankedAfter(gs, rank, d);
    MembersAfter(gs, d, x);
    MembersBelow(gs, rank, x);
    FlattenedLeaves(gs, rank, d, gs.at[x].members, rank[x]);
  }

  lemma {:induction false} FlattenedLeaves(gs: GroupMap, rank: map<Id, nat>, d: Id, ms: seq<Member>, bound: nat)
    requires WellKeyed(gs) && Ranked(gs, rank) && d in gs.at && SoleParent(gs, Sub(d))
    requires Ranked(Ungroup(gs, d), rank) && Below(gs, rank, ms, bound)
    ensures Below(Ungroup(gs, d), rank, Flattened(ms, d, gs.at[d].members), bound)
    ensures LeavesOf(Ungroup(gs, d), rank, Flattened(ms, d, gs.at[d].members), bound) == LeavesOf(gs, rank, ms, bound)
    decreases bound, |ms|
  {
    if ms != [] {
      var freed, after := gs.at[d].members, Ungroup(gs, d);
      FlattenedLeaves(gs, rank, d, ms[1..], bound);
      HeadLeaves(gs, rank, d, ms[0], bound);
      LeavesOfConcat(after, rank, if ms[0] == Sub(d) then freed else [ms[0]], Flattened(ms[1..], d, freed), bound);
    }
  }

  lemma {:induction false} HeadLeaves(gs: GroupMap, rank: map<Id, nat>, d: Id, m: Member, bound: nat)
    requires WellKeyed(gs) && Ranked(gs, rank) && d in gs.at && SoleParent(gs, Sub(d))
    requires Ranked(Ungroup(gs, d), rank) && Below(gs, rank, [m], bound)
    ensures Below(Ungroup(gs, d), rank, if m == Sub(d) then gs.at[d].members else [m], bound)
    ensures LeavesOf(Ungroup(gs, d), rank, if m == Sub(d) then gs.at[d].members else [m], bound) ==
            LeavesAt(gs, rank, m, bound)
    decreases bound, 0
  {
    var after := Ungroup(gs, d);
    KeysAfter(gs, d);
    assert m in [m];
    if m == Sub(d) {
      var freed := gs.at[d].members;
      FreedBelow(gs, rank, d, bound);
      FreedBelow(gs, rank, d, rank[d]);
      StillBelow(gs, rank, d, freed, bound);
      StillBelow(gs, rank, d, freed, rank[d]);
      FlattenedWithout(freed, d, freed);
      FlattenedLeaves(gs, rank, d, freed, rank[d]);
      BoundIsIrrelevant(after, rank, freed, rank[d], bound);
    } else {
      StillBelow(gs, rank, d, [m], bound);
      assert LeavesOf(after, rank, [m], bound) == LeavesAt(after, rank, m, bound) + LeavesOf(after, rank, [], bound);
      if m.Sub? && m.id in gs.at { DissolveKeepsLeaves(gs, rank, d, m.id); }
    }
  }

  lemma AddedIsMap(gs: GroupMap, g: Group)
    requires IsMap(gs)
    ensures IsMap(WithGroup(gs, g))
  {
    var next := WithGroup(gs, g);
    forall k ensures k in next.keys <==> k in next.at {}
  }

  lemma {:induction false} WithoutDistinct(keys: seq<Id>, d: Id)
    requires forall i, j :: 0 <= i < j < |keys| ==> keys[i] != keys[j]
    ensures forall i, j :: 0 <= i < j < |Without(keys, d)| ==> Without(keys, d)[i] != Without(keys, d)[j]
  {
    if keys != [] {
      WithoutDistinct(keys[1..], d);
      assert keys[0] !in keys[1..];
      var rest := Without(keys[1..], d);
      if keys[0] == d { assert Without(keys, d) == rest; } else { assert Without(keys, d) == [keys[0]] + rest; }
    }
  }

  lemma UngroupIsMap(gs: GroupMap, d: Id)
    requires IsMap(gs)
    ensures IsMap(Ungroup(gs, d))
  {
    WithoutDistinct(gs.keys, d);
    KeysAfter(gs, d);
  }

  // ---- Walking up ----

  ghost function Higher(gs: GroupMap, rank: map<Id, nat>, m: Member): set<Id>
    requires Ranked(gs, rank)
  {
    if m.Node? || m.id !in gs.at then gs.at.Keys else set g | g in gs.at && rank[g] > rank[m.id]
  }

  lemma ParentIsHigher(gs: GroupMap, rank: map<Id, nat>, m: Member)
    requires WellKeyed(gs) && Ranked(gs, rank) && ParentOf(gs, m).Some?
    ensures ParentOf(gs, m).value in gs.at
    ensures Higher(gs, rank, Sub(ParentOf(gs, m).value)) < Higher(gs, rank, m)
  {
    ParentLists(gs, m);
    var p := ParentOf(gs, m).value;
    assert p in Higher(gs, rank, m) && p !in Higher(gs, rank, Sub(p));
  }

  /** The groups around `m`, innermost first. */
  ghost function Around(gs: GroupMap, rank: map<Id, nat>, m: Member): (r: seq<Id>)
    requires WellKeyed(gs) && Ranked(gs, rank)
    ensures forall g :: g in r ==> g in gs.at
    decreases Higher(gs, rank, m)
  {
    match ParentOf(gs, m)
    case None => []
    case Some(p) => ParentIsHigher(gs, rank, m); [p] + Around(gs, rank, Sub(p))
  }

  ghost predicate SingleParents(gs: GroupMap) {
    forall m :: SoleParent(gs, m)
  }

  /** Walking up and collecting down agree: where every member has one parent, the groups found around a member are the
  groups it is found in. */
  lemma {:induction false} AroundAreHolders(gs: GroupMap, rank: map<Id, nat>, node: Id, g: Id)
    requires WellKeyed(gs) && Ranked(gs, rank) && SingleParents(gs) && g in gs.at
    ensures g in Around(gs, rank, Node(node)) <==> node in Leaves(gs, rank, g)
  {
    if node in Leaves(gs, rank, g) { LeafIsInside(gs, rank, node, g); }
    if g in Around(gs, rank, Node(node)) { AroundHolds(gs, rank, Node(node), node, g); }
  }

  lemma {:induction false} LeafIsInside(gs: GroupMap, rank: map<Id, nat>, node: Id, g: Id)
    requires WellKeyed(gs) && Ranked(gs, rank) && SingleParents(gs) && g in gs.at && node in Leaves(gs, rank, g)
    ensures g in Around(gs, rank, Node(node))
    decreases rank[g]
  {
    MembersBelow(gs, rank, g);
    var m := LeafSource(gs, rank, gs.at[g].members, rank[g], node);
    assert Lists(gs, g, m);
    assert SoleParent(gs, m);
    if m.Sub? {
      LeafIsInside(gs, rank, node, m.id);
      AroundGoesOn(gs, rank, Node(node), m.id, g);
    }
  }

  lemma {:induction false} LeafSource(gs: GroupMap, rank: map<Id, nat>, ms: seq<Member>, bound: nat, node: Id)
    returns (m: Member)
    requires Ranked(gs, rank) && Below(gs, rank, ms, bound) && node in LeavesOf(gs, rank, ms, bound)
    ensures m in ms && Below(gs, rank, [m], bound) && node in LeavesAt(gs, rank, m, bound)
    decreases |ms|
  {
    if node in LeavesAt(gs, rank, ms[0], bound) {
      m := ms[0];
    } else {
      m := LeafSource(gs, rank, ms[1..], bound, node);
    }
  }

  lemma {:induction false} AroundGoesOn(gs: GroupMap, rank: map<Id, nat>, m: Member, h: Id, g: Id)
    requires WellKeyed(gs) && Ranked(gs, rank) && h in Around(gs, rank, m) && ParentOf(gs, Sub(h)) == Some(g)
    ensures g in Around(gs, rank, m)
    decreases Higher(gs, rank, m)
  {
    ParentIsHigher(gs, rank, m);
    var p := ParentOf(gs, m).value;
    if h == p { ParentIsHigher(gs, rank, Sub(p)); } else { AroundGoesOn(gs, rank, Sub(p), h, g); }
  }

  /** `node` is at, or in, the member `m`. */
  ghost predicate Holds(gs: GroupMap, rank: map<Id, nat>, m: Member, node: Id)
    requires Ranked(gs, rank)
  {
    if m.Node? then m.id == node else m.id in gs.at && node in Leaves(gs, rank, m.id)
  }

  lemma {:induction false} AroundHolds(gs: GroupMap, rank: map<Id, nat>, m: Member, node: Id, g: Id)
    requires WellKeyed(gs) && Ranked(gs, rank) && g in Around(gs, rank, m) && Holds(gs, rank, m, node)
    ensures node in Leaves(gs, rank, g)
    decreases Higher(gs, rank, m)
  {
    ParentIsHigher(gs, rank, m);
    ParentLists(gs, m);
    var p := ParentOf(gs, m).value;
    MembersBelow(gs, rank, p);
    LeafFound(gs, rank, gs.at[p].members, rank[p], m, node);
    if g != p { AroundHolds(gs, rank, Sub(p), node, g); }
  }

  lemma {:induction false} LeafFound(gs: GroupMap, rank: map<Id, nat>, ms: seq<Member>, bound: nat, m: Member, node: Id)
    requires Ranked(gs, rank) && Below(gs, rank, ms, bound) && m in ms && Holds(gs, rank, m, node)
    ensures node in LeavesOf(gs, rank, ms, bound)
    decreases |ms|
  {
    if ms[0] != m { LeafFound(gs, rank, ms[1..], bound, m, node); }
  }
}
