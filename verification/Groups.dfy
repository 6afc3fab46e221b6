/** The forest of element groups kept beside a diagram: its leaves, its ancestor walks, and dissolving a group. */
module Groups {
  import opened Wrappers

  datatype Member = Node(id: Id) | Sub(id: Id)

  datatype Group = Group(id: Id, caption: string, members: seq<Member>, locked: bool)

  /** A map that remembers the order its keys were inserted in. */
  datatype GroupMap = GroupMap(keys: seq<Id>, at: map<Id, Group>)

  ghost predicate IsMap(gs: GroupMap) {
    && (forall k :: k in gs.keys <==> k in gs.at)
    && (forall i, j :: 0 <= i < j < |gs.keys| ==> gs.keys[i] != gs.keys[j])
  }

  ghost predicate WellKeyed(gs: GroupMap) {
    IsMap(gs) && forall k :: k in gs.at ==> gs.at[k].id == k
  }

  // ---- Parents ----

  function FirstListing(gs: GroupMap, keys: seq<Id>, m: Member): Option<Id> {
    if keys == [] then None
    else if keys[0] in gs.at && m in gs.at[keys[0]].members then Some(gs.at[keys[0]].id)
    else FirstListing(gs, keys[1..], m)
  }

  /** The first group, in insertion order, that lists `m`. */
  function ParentOf(gs: GroupMap, m: Member): Option<Id> { FirstListing(gs, gs.keys, m) }

  predicate Lists(gs: GroupMap, g: Id, m: Member) { g in gs.at && m in gs.at[g].members }

  lemma {:induction false} FirstListingLists(gs: GroupMap, keys: seq<Id>, m: Member)
    requires WellKeyed(gs)
    ensures FirstListing(gs, keys, m).Some? ==> Lists(gs, FirstListing(gs, keys, m).value, m)
    ensures FirstListing(gs, keys, m).None? ==> forall g :: g in keys ==> !Lists(gs, g, m)
  {
    if keys != [] { FirstListingLists(gs, keys[1..], m); }
  }

  lemma ParentLists(gs: GroupMap, m: Member)
    requires WellKeyed(gs)
    ensures ParentOf(gs, m).Some? ==> Lists(gs, ParentOf(gs, m).value, m)
    ensures ParentOf(gs, m).None? ==> forall g :: !Lists(gs, g, m)
  {
    FirstListingLists(gs, gs.keys, m);
  }

  /** It is the first in insertion order. */
  lemma {:induction false} ParentIsFirst(gs: GroupMap, keys: seq<Id>, m: Member, i: nat)
    requires WellKeyed(gs) && i < |keys| && Lists(gs, keys[i], m)
    requires forall j :: 0 <= j < i ==> !Lists(gs, keys[j], m)
    ensures FirstListing(gs, keys, m) == Some(keys[i])
  {
    if i > 0 { ParentIsFirst(gs, keys[1..], m, i - 1); }
  }

  /** No group but the one a parent lookup finds lists `m`. */
  ghost predicate SoleParent(gs: GroupMap, m: Member) {
    forall g :: Lists(gs, g, m) ==> ParentOf(gs, m) == Some(g)
  }

  // ---- Leaves ----

  /** Nesting is well-founded: a subgroup ranks below every group that lists it. */
  ghost predicate Ranked(gs: GroupMap, rank: map<Id, nat>) {
    && (forall g :: g in gs.at ==> g in rank)
    && (forall g, m {:trigger Lists(gs, g, m)} :: Lists(gs, g, m) && m.Sub? && m.id in gs.at ==> rank[m.id] < rank[g])
  }

  ghost predicate Below(gs: GroupMap, rank: map<Id, nat>, ms: seq<Member>, bound: nat) {
    forall m :: m in ms && m.Sub? && m.id in gs.at ==> m.id in rank && rank[m.id] < bound
  }

  lemma MembersBelow(gs: GroupMap, rank: map<Id, nat>, g: Id)
    requires Ranked(gs, rank) && g in gs.at
    ensures g in rank && Below(gs, rank, gs.at[g].members, rank[g])
  {
    forall m | m in gs.at[g].members && m.Sub? && m.id in gs.at ensures rank[m.id] < rank[g] {
      assert Lists(gs, g, m);
    }
  }

  /** The nodes under `g`, in member order. */
  ghost function Leaves(gs: GroupMap, rank: map<Id, nat>, g: Id): seq<Id>
    requires Ranked(gs, rank) && g in gs.at
    decreases rank[g], |gs.at[g].members| + 1
  {
    MembersBelow(gs, rank, g);
    LeavesOf(gs, rank, gs.at[g].members, rank[g])
  }

  ghost function LeavesAt(gs: GroupMap, rank: map<Id, nat>, m: Member, bound: nat): seq<Id>
    requires Ranked(gs, rank) && Below(gs, rank, [m], bound)
    decreases bound, 0
  {
    if m.Node? then [m.id] else if m.id in gs.at then assert m in [m]; Leaves(gs, rank, m.id) else []
  }

  ghost function LeavesOf(gs: GroupMap, rank: map<Id, nat>, ms: seq<Member>, bound: nat): seq<Id>
    requires Ranked(gs, rank) && Below(gs, rank, ms, bound)
    decreases bound, |ms|
  {
    if ms == [] then [] else LeavesAt(gs, rank, ms[0], bound) + LeavesOf(gs, rank, ms[1..], bound)
  }

  lemma {:induction false} LeavesOfConcat(gs: GroupMap, rank: map<Id, nat>, a: seq<Member>, b: seq<Member>, bound: nat)
    requires Ranked(gs, rank) && Below(gs, rank, a, bound) && Below(gs, rank, b, bound)
    ensures Below(gs, rank, a + b, bound)
    ensures LeavesOf(gs, rank, a + b, bound) == LeavesOf(gs, rank, a, bound) + LeavesOf(gs, rank, b, bound)
  {
    if a == [] {
      assert a + b == b;
    } else {
      LeavesOfConcat(gs, rank, a[1..], b, bound);
      assert (a + b)[0] == a[0] && (a + b)[1..] == a[1..] + b;
      Associates(LeavesAt(gs, rank, a[0], bound), LeavesOf(gs, rank, a[1..], bound), LeavesOf(gs, rank, b, bound));
    }
  }

  lemma {:induction false} BoundIsIrrelevant(gs: GroupMap, rank: map<Id, nat>, ms: seq<Member>, a: nat, b: nat)
    requires Ranked(gs, rank) && Below(gs, rank, ms, a) && Below(gs, rank, ms, b)
    ensures LeavesOf(gs, rank, ms, a) == LeavesOf(gs, rank, ms, b)
  {
    if ms != [] { BoundIsIrrelevant(gs, rank, ms[1..], a, b); }
  }
}
