/** Pruning the groups down to the nodes a diagram still has. */
module GroupPrune {
  import opened Wrappers
  import opened Groups

  predicate Stays(m: Member, at: map<Id, Group>, live: set<Id>) {
    if m.Node? then m.id in live else m.id in at
  }

  function Kept(ms: seq<Member>, at: map<Id, Group>, live: set<Id>): (r: seq<Member>)
    ensures |r| <= |ms| && (|r| == |ms| ==> r == ms)
    ensures forall m :: m in r <==> m in ms && Stays(m, at, live)
  {
    if ms == [] then []
    else (if Stays(ms[0], at, live) then [ms[0]] else []) + Kept(ms[1..], at, live)
  }

  function KeysIn(keys: seq<Id>, at: map<Id, Group>): (r: seq<Id>)
    ensures |r| <= |keys| && (|r| == |keys| ==> r == keys)
    ensures forall k :: k in r <==> k in keys && k in at
  {
    if keys == [] then [] else (if keys[0] in at then [keys[0]] else []) + KeysIn(keys[1..], at)
  }

  function KeptGroups(at: map<Id, Group>, live: set<Id>): map<Id, Group> {
    map g | g in at && Kept(at[g].members, at, live) != [] :: at[g].(members := Kept(at[g].members, at, live))
  }

  /** One sweep: dead nodes and missing subgroups leave their groups, and groups left empty go. */
  function Sweep(gs: GroupMap, live: set<Id>): GroupMap {
    GroupMap(KeysIn(gs.keys, KeptGroups(gs.at, live)), KeptGroups(gs.at, live))
  }

  predicate HasDead(gs: GroupMap, live: set<Id>) {
    exists k :: k in gs.keys && k in gs.at && exists m :: m in gs.at[k].members && m.Node? && m.id !in live
  }

  function CountOver(keys: seq<Id>, at: map<Id, Group>): nat {
    if keys == [] then 0 else (if keys[0] in at then |at[keys[0]].members| else 0) + CountOver(keys[1..], at)
  }

  function MemberCount(gs: GroupMap): nat { CountOver(gs.keys, gs.at) }

  lemma {:induction false} CountShrinks(keys: seq<Id>, at: map<Id, Group>, live: set<Id>)
    ensures CountOver(KeysIn(keys, KeptGroups(at, live)), KeptGroups(at, live)) <= CountOver(keys, at)
    ensures CountOver(KeysIn(keys, KeptGroups(at, live)), KeptGroups(at, live)) == CountOver(keys, at) &&
            KeysIn(keys, KeptGroups(at, live)) == keys ==>
              forall k :: k in keys && k in at ==>
                  k in KeptGroups(at, live) && Kept(at[k].members, at, live) == at[k].members
  {
    if keys != [] {
      CountShrinks(keys[1..], at, live);
      var kept := KeptGroups(at, live);
      if keys[0] in kept {
        assert KeysIn(keys, kept)[1..] == KeysIn(keys[1..], kept);
      } else {
        assert KeysIn(keys, kept) == KeysIn(keys[1..], kept);
        assert |KeysIn(keys, kept)| < |keys|;
      }
    }
  }

  /** Nothing is counted away exactly when the sweep changes nothing. */
  lemma SteadyIsFixed(gs: GroupMap, live: set<Id>)
    requires IsMap(gs)
    ensures |Sweep(gs, live).keys| <= |gs.keys| && MemberCount(Sweep(gs, live)) <= MemberCount(gs)
    ensures |Sweep(gs, live).keys| == |gs.keys| && MemberCount(Sweep(gs, live)) == MemberCount(gs) <==>
            Sweep(gs, live) == gs
  {
    CountShrinks(gs.keys, gs.at, live);
    if |Sweep(gs, live).keys| == |gs.keys| && MemberCount(Sweep(gs, live)) == MemberCount(gs) {
      AllKeptIsSame(gs, live);
    }
  }

  lemma AllKeptIsSame(gs: GroupMap, live: set<Id>)
    requires forall k :: k in gs.keys <==> k in gs.at
    requires forall k :: k in gs.keys && k in gs.at ==>
               k in KeptGroups(gs.at, live) && Kept(gs.at[k].members, gs.at, live) == gs.at[k].members
    ensures KeptGroups(gs.at, live) == gs.at
  {
    forall k | k in gs.at ensures k in KeptGroups(gs.at, live) && KeptGroups(gs.at, live)[k] == gs.at[k] {}
  }

  lemma {:induction false} KeysInDistinct(keys: seq<Id>, at: map<Id, Group>)
    requires forall i, j :: 0 <= i < j < |keys| ==> keys[i] != keys[j]
    ensures forall i, j :: 0 <= i < j < |KeysIn(keys, at)| ==> KeysIn(keys, at)[i] != KeysIn(keys, at)[j]
  {
    if keys != [] {
      KeysInDistinct(keys[1..], at);
      assert keys[0] !in keys[1..];
      var rest := KeysIn(keys[1..], at);
      if keys[0] in at { assert KeysIn(keys, at) == [keys[0]] + rest; } else { assert KeysIn(keys, at) == rest; }
    }
  }

  lemma SweepIsMap(gs: GroupMap, live: set<Id>)
    requires IsMap(gs)
    ensures IsMap(Sweep(gs, live))
  {
    KeysInDistinct(gs.keys, KeptGroups(gs.at, live));
  }

  /** Sweeping until nothing changes. */
  function Pruned(gs: GroupMap, live: set<Id>): GroupMap
    requires IsMap(gs)
    decreases |gs.keys| + MemberCount(gs)
  {
    SteadyIsFixed(gs, live);
    SweepIsMap(gs, live);
    if Sweep(gs, live) == gs then gs else Pruned(Sweep(gs, live), live)
  }

  function Upto(kept: map<Id, Group>, keys: seq<Id>): map<Id, Group> { map k | k in kept && k in keys :: kept[k] }

  lemma UptoSnoc(kept: map<Id, Group>, keys: seq<Id>, k: Id)
    ensures Upto(kept, keys + [k]) == if k in kept then Upto(kept, keys)[k := kept[k]] else Upto(kept, keys)
  {
  }

  lemma UptoAll(kept: map<Id, Group>, keys: seq<Id>)
    requires forall k :: k in kept ==> k in keys
    ensures Upto(kept, keys) == kept
  {
  }

  /** What is left of a group, unless nothing is. */
  method SweepGroup(g: Group, at: map<Id, Group>, live: set<Id>) returns (r: Option<Group>)
    ensures r == if Kept(g.members, at, live) == [] then None else Some(g.(members := Kept(g.members, at, live)))
  {
    var members := Kept(g.members, at, live);
    if |members| > 0 {
      return Some(if |members| == |g.members| then g else g.(members := members));
    }
    return None;
  }

  ghost predicate SweptUpTo(was: map<Id, Group>, live: set<Id>, done: seq<Id>, keys: seq<Id>, at: map<Id, Group>) {
    var all := KeptGroups(was, live);
    var swept := keys == KeysIn(done, all) && at == Upto(all, done);
    swept
  }

  lemma SweptNext(was: map<Id, Group>, live: set<Id>, done: seq<Id>, keys: seq<Id>, at: map<Id, Group>, id: Id,
                  g: Option<Group>)
    requires SweptUpTo(was, live, done, keys, at) && id in was
    requires g == var ms := Kept(was[id].members, was, live); if ms == [] then None else Some(was[id].(members := ms))
    ensures SweptUpTo(was, live, done + [id], if g.Some? then keys + [id] else keys,
                      if g.Some? then at[id := g.value] else at)
  {
    SweptStep(KeptGroups(was, live), done, id);
  }

  lemma SweptAll(gs: GroupMap, live: set<Id>, keys: seq<Id>, at: map<Id, Group>)
    requires IsMap(gs) && SweptUpTo(gs.at, live, gs.keys, keys, at)
    ensures GroupMap(keys, at) == Sweep(gs, live)
  {
    UptoAll(KeptGroups(gs.at, live), gs.keys);
  }

  method SweepGroups(was: map<Id, Group>, ids: seq<Id>, live: set<Id>) returns (keys: seq<Id>, at: map<Id, Group>)
    requires forall k :: k in ids ==> k in was
    ensures SweptUpTo(was, live, ids, keys, at)
  {
    keys, at := [], map[];
    assert ids[..0] == [] && SweptUpTo(was, live, [], keys, at);
    hide KeptGroups, KeysIn, Upto;
    for i := 0 to |ids|
      invariant SweptUpTo(was, live, ids[..i], keys, at)
    {
      assert ids[..i + 1] == ids[..i] + [ids[i]];
      var g := SweepGroup(was[ids[i]], was, live);
      SweptNext(was, live, ids[..i], keys, at, ids[i], g);
      if g.Some? {
        keys, at := keys + [ids[i]], at[ids[i] := g.value];
      }
    }
    assert ids[..|ids|] == ids;
  }

  method SweepOnce(gs: GroupMap, live: set<Id>) returns (next: GroupMap)
    requires IsMap(gs)
    ensures next == Sweep(gs, live)
  {
    var keys, at := SweepGroups(gs.at, gs.keys, live);
    SweptAll(gs, live, keys, at);
    next := GroupMap(keys, at);
  }

  lemma SweptStep(kept: map<Id, Group>, done: seq<Id>, id: Id)
    ensures id in kept ==> KeysIn(done + [id], kept) == KeysIn(done, kept) + [id] &&
                           Upto(kept, done + [id]) == Upto(kept, done)[id := kept[id]]
    ensures id !in kept ==>
              KeysIn(done + [id], kept) == KeysIn(done, kept) && Upto(kept, done + [id]) == Upto(kept, done)
  {
    KeysInSnoc(done, id, kept);
    UptoSnoc(kept, done, id);
    assert KeysIn(done, kept) + [] == KeysIn(done, kept);
  }

  lemma {:induction false} KeysInSnoc(keys: seq<Id>, k: Id, at: map<Id, Group>)
    ensures KeysIn(keys + [k], at) == KeysIn(keys, at) + (if k in at then [k] else [])
  {
    if keys == [] {
      assert keys + [k] == [k];
    } else {
      KeysInSnoc(keys[1..], k, at);
      assert (keys + [k])[0] == keys[0] && (keys + [k])[1..] == keys[1..] + [k];
      Associates(if keys[0] in at then [keys[0]] else [], KeysIn(keys[1..], at), if k in at then [k] else []);
    }
  }

  /** Returns the groups untouched, and says so, when no node member is dead. */
  method PruneGroups(gs: GroupMap, live: set<Id>) returns (out: GroupMap, changed: bool)
    requires IsMap(gs)
    ensures changed == HasDead(gs, live)
    ensures out == PruneResult(gs, live)
  {
    changed := HasDead(gs, live);
    if !changed { return gs, false; }
    var current := gs;
    while true
      invariant IsMap(current) && Pruned(gs, live) == Pruned(current, live)
      decreases |current.keys| + MemberCount(current)
    {
      var next := SweepOnce(current, live);
      SteadyIsFixed(current, live);
      SweepIsMap(current, live);
      if |next.keys| == |current.keys| && MemberCount(next) == MemberCount(current) { return next, true; }
      current := next;
    }
  }

  lemma {:induction false} PrunedIsMap(gs: GroupMap, live: set<Id>)
    requires IsMap(gs)
    ensures IsMap(Pruned(gs, live))
    decreases |gs.keys| + MemberCount(gs)
  {
    SteadyIsFixed(gs, live);
    SweepIsMap(gs, live);
    if Sweep(gs, live) != gs { PrunedIsMap(Sweep(gs, live), live); }
  }

  // ---- What pruning keeps ----

  function Alive(leaves: seq<Id>, live: set<Id>): seq<Id> {
    if leaves == [] then [] else (if leaves[0] in live then [leaves[0]] else []) + Alive(leaves[1..], live)
  }

  lemma {:induction false} AliveConcat(a: seq<Id>, b: seq<Id>, live: set<Id>)
    ensures Alive(a + b, live) == Alive(a, live) + Alive(b, live)
  {
    if a == [] {
      assert a + b == b;
    } else {
      AliveConcat(a[1..], b, live);
      assert (a + b)[0] == a[0] && (a + b)[1..] == a[1..] + b;
      Associates(if a[0] in live then [a[0]] else [], Alive(a[1..], live), Alive(b, live));
    }
  }

  lemma SweepRanked(gs: GroupMap, rank: map<Id, nat>, live: set<Id>)
    requires Ranked(gs, rank)
    ensures Ranked(Sweep(gs, live), rank)
  {
    forall g, m | Lists(Sweep(gs, live), g, m) && m.Sub? && m.id in Sweep(gs, live).at ensures rank[m.id] < rank[g] {
      assert Lists(gs, g, m);
    }
  }

  lemma KeptBelow(gs: GroupMap, rank: map<Id, nat>, live: set<Id>, ms: seq<Member>, bound: nat)
    requires Below(gs, rank, ms, bound)
    ensures Below(Sweep(gs, live), rank, Kept(ms, gs.at, live), bound)
  {
  }

  ghost function LeavesIn(gs: GroupMap, rank: map<Id, nat>, g: Id): seq<Id>
    requires Ranked(gs, rank)
  {
    if g in gs.at then Leaves(gs, rank, g) else []
  }

  /** A sweep loses no live leaf of any group. */
  lemma {:induction false} SweepKeepsAlive(gs: GroupMap, rank: map<Id, nat>, live: set<Id>, g: Id)
    requires Ranked(gs, rank) && Ranked(Sweep(gs, live), rank) && g in gs.at
    ensures Alive(LeavesIn(Sweep(gs, live), rank, g), live) == Alive(Leaves(gs, rank, g), live)
    decreases rank[g], |gs.at[g].members| + 1
  {
    MembersBelow(gs, rank, g);
    KeptKeepsAlive(gs, rank, live, gs.at[g].members, rank[g]);
  }

  lemma {:induction false} KeptKeepsAlive(gs: GroupMap, rank: map<Id, nat>, live: set<Id>, ms: seq<Member>, bound: nat)
    requires Ranked(gs, rank) && Ranked(Sweep(gs, live), rank) && Below(gs, rank, ms, bound)
    ensures Below(Sweep(gs, live), rank, Kept(ms, gs.at, live), bound)
    ensures Alive(LeavesOf(Sweep(gs, live), rank, Kept(ms, gs.at, live), bound), live) ==
            Alive(LeavesOf(gs, rank, ms, bound), live)
    decreases bound, |ms|
  {
    KeptBelow(gs, rank, live, ms, bound);
    if ms != [] {
      var swept, m := Sweep(gs, live), ms[0];
      KeptKeepsAlive(gs, rank, live, ms[1..], bound);
      AliveConcat(LeavesAt(gs, rank, m, bound), LeavesOf(gs, rank, ms[1..], bound), live);
      MemberKeepsAlive(gs, rank, live, m, bound);
      if Stays(m, gs.at, live) {
        assert Kept(ms, gs.at, live)[1..] == Kept(ms[1..], gs.at, live);
        AliveConcat(LeavesAt(swept, rank, m, bound), LeavesOf(swept, rank, Kept(ms[1..], gs.at, live), bound), live);
      } else {
        assert Kept(ms, gs.at, live) == Kept(ms[1..], gs.at, live);
      }
    }
  }

  lemma {:induction false} MemberKeepsAlive(gs: GroupMap, rank: map<Id, nat>, live: set<Id>, m: Member, bound: nat)
    requires Ranked(gs, rank) && Ranked(Sweep(gs, live), rank) && Below(gs, rank, [m], bound)
    ensures Below(Sweep(gs, live), rank, [m], bound)
    ensures Stays(m, gs.at, live) ==>
              Alive(LeavesAt(Sweep(gs, live), rank, m, bound), live) == Alive(LeavesAt(gs, rank, m, bound), live)
    ensures !Stays(m, gs.at, live) ==> Alive(LeavesAt(gs, rank, m, bound), live) == []
    decreases bound, 0
  {
    assert m in [m];
    if m.Sub? && m.id in gs.at { SweepKeepsAlive(gs, rank, live, m.id); }
  }

  lemma {:induction false} PrunedKeepsAlive(gs: GroupMap, rank: map<Id, nat>, live: set<Id>, g: Id)
    requires IsMap(gs) && Ranked(gs, rank) && g in gs.at
    ensures Ranked(Pruned(gs, live), rank) && IsMap(Pruned(gs, live))
    ensures Sweep(Pruned(gs, live), live) == Pruned(gs, live)
    ensures Alive(LeavesIn(Pruned(gs, live), rank, g), live) == Alive(Leaves(gs, rank, g), live)
    decreases |gs.keys| + MemberCount(gs)
  {
    SteadyIsFixed(gs, live);
    SweepIsMap(gs, live);
    SweepRanked(gs, rank, live);
    if Sweep(gs, live) != gs {
      SweepKeepsAlive(gs, rank, live, g);
      if g in Sweep(gs, live).at {
        PrunedKeepsAlive(Sweep(gs, live), rank, live, g);
      } else {
        PrunedIsSteady(Sweep(gs, live), rank, live);
        PrunedHasFewer(Sweep(gs, live), live);
      }
    }
  }

  lemma {:induction false} PrunedIsSteady(gs: GroupMap, rank: map<Id, nat>, live: set<Id>)
    requires IsMap(gs) && Ranked(gs, rank)
    ensures Ranked(Pruned(gs, live), rank) && IsMap(Pruned(gs, live))
    ensures Sweep(Pruned(gs, live), live) == Pruned(gs, live)
    decreases |gs.keys| + MemberCount(gs)
  {
    SteadyIsFixed(gs, live);
    SweepIsMap(gs, live);
    SweepRanked(gs, rank, live);
    if Sweep(gs, live) != gs { PrunedIsSteady(Sweep(gs, live), rank, live); }
  }

  lemma {:induction false} PrunedHasFewer(gs: GroupMap, live: set<Id>)
    requires IsMap(gs)
    ensures forall g :: g in Pruned(gs, live).at ==> g in gs.at
    decreases |gs.keys| + MemberCount(gs)
  {
    SteadyIsFixed(gs, live);
    SweepIsMap(gs, live);
    if Sweep(gs, live) != gs { PrunedHasFewer(Sweep(gs, live), live); }
  }

  /** In a steady forest every group has leaves and all of them are live. */
  lemma {:induction false} SteadyGroup(gs: GroupMap, rank: map<Id, nat>, live: set<Id>, g: Id)
    requires Ranked(gs, rank) && Sweep(gs, live) == gs && g in gs.at
    ensures Leaves(gs, rank, g) != [] && Alive(Leaves(gs, rank, g), live) == Leaves(gs, rank, g)
    decreases rank[g], |gs.at[g].members| + 1
  {
    MembersBelow(gs, rank, g);
    assert g in KeptGroups(gs.at, live);
    assert Kept(gs.at[g].members, gs.at, live) == gs.at[g].members;
    SteadyMembers(gs, rank, live, gs.at[g].members, rank[g]);
  }

  lemma {:induction false} SteadyMembers(gs: GroupMap, rank: map<Id, nat>, live: set<Id>, ms: seq<Member>, bound: nat)
    requires Ranked(gs, rank) && Sweep(gs, live) == gs && Below(gs, rank, ms, bound)
    requires forall m :: m in ms ==> Stays(m, gs.at, live)
    ensures ms != [] ==> LeavesOf(gs, rank, ms, bound) != []
    ensures Alive(LeavesOf(gs, rank, ms, bound), live) == LeavesOf(gs, rank, ms, bound)
    decreases bound, |ms|
  {
    if ms != [] {
      var m := ms[0];
      SteadyMembers(gs, rank, live, ms[1..], bound);
      AliveConcat(LeavesAt(gs, rank, m, bound), LeavesOf(gs, rank, ms[1..], bound), live);
      assert m in ms && Stays(m, gs.at, live);
      if m.Sub? { SteadyGroup(gs, rank, live, m.id); }
    }
  }

  /** A swept forest keeps a group exactly when it had a live leaf, and keeps its live leaves in order. */
  lemma PrunedExactly(gs: GroupMap, rank: map<Id, nat>, live: set<Id>, g: Id)
    requires IsMap(gs) && Ranked(gs, rank) && g in gs.at
    ensures Ranked(Pruned(gs, live), rank)
    ensures g in Pruned(gs, live).at <==> Alive(Leaves(gs, rank, g), live) != []
    ensures g in Pruned(gs, live).at ==> Leaves(Pruned(gs, live), rank, g) == Alive(Leaves(gs, rank, g), live)
  {
    PrunedKeepsAlive(gs, rank, live, g);
    if g in Pruned(gs, live).at { SteadyGroup(Pruned(gs, live), rank, live, g); }
  }

  /** What the prune operation gives: nothing is swept unless some node member is dead. */
  function PruneResult(gs: GroupMap, live: set<Id>): GroupMap
    requires IsMap(gs)
  {
    if HasDead(gs, live) then Pruned(gs, live) else gs
  }

  lemma {:induction false} NoDeadGroup(gs: GroupMap, rank: map<Id, nat>, live: set<Id>, g: Id)
    requires IsMap(gs) && Ranked(gs, rank) && !HasDead(gs, live) && g in gs.at
    ensures Alive(Leaves(gs, rank, g), live) == Leaves(gs, rank, g)
    decreases rank[g], |gs.at[g].members| + 1
  {
    MembersBelow(gs, rank, g);
    assert g in gs.keys;
    NoDeadMembers(gs, rank, live, gs.at[g].members, rank[g]);
  }

  lemma {:induction false} NoDeadMembers(gs: GroupMap, rank: map<Id, nat>, live: set<Id>, ms: seq<Member>, bound: nat)
    requires IsMap(gs) && Ranked(gs, rank) && !HasDead(gs, live) && Below(gs, rank, ms, bound)
    requires forall m :: m in ms && m.Node? ==> m.id in live
    ensures Alive(LeavesOf(gs, rank, ms, bound), live) == LeavesOf(gs, rank, ms, bound)
    decreases bound, |ms|
  {
    if ms != [] {
      var m := ms[0];
      NoDeadMembers(gs, rank, live, ms[1..], bound);
      AliveConcat(LeavesAt(gs, rank, m, bound), LeavesOf(gs, rank, ms[1..], bound), live);
      assert m in ms;
      if m.Sub? && m.id in gs.at { NoDeadGroup(gs, rank, live, m.id); }
    }
  }

  /** Every survivor keeps its live leaves, in order, and no group with a live leaf is lost. */
  lemma PruneKeepsLiveLeaves(gs: GroupMap, rank: map<Id, nat>, live: set<Id>, g: Id)
    requires IsMap(gs) && Ranked(gs, rank) && g in gs.at
    ensures Ranked(PruneResult(gs, live), rank)
    ensures g in PruneResult(gs, live).at ==> Leaves(PruneResult(gs, live), rank, g) == Alive(Leaves(gs, rank, g), live)
    ensures Alive(Leaves(gs, rank, g), live) != [] ==> g in PruneResult(gs, live).at
  {
    if HasDead(gs, live) { PrunedExactly(gs, rank, live, g); } else { NoDeadGroup(gs, rank, live, g); }
  }

  ghost predicate KeptIffAlive(gs: GroupMap, rank: map<Id, nat>, live: set<Id>)
    requires IsMap(gs) && Ranked(gs, rank)
  {
    forall g :: g in gs.at ==> (g in PruneResult(gs, live).at <==> Alive(Leaves(gs, rank, g), live) != [])
  }

  ghost predicate NoneLeafless(gs: GroupMap, rank: map<Id, nat>)
    requires Ranked(gs, rank)
  {
    forall g :: g in gs.at ==> Leaves(gs, rank, g) != []
  }

  /** Groups without a live leaf all go, unless no node is dead: then groups that never had a leaf are left standing. */
  lemma PruneExactlyWhen(gs: GroupMap, rank: map<Id, nat>, live: set<Id>)
    requires IsMap(gs) && Ranked(gs, rank)
    ensures KeptIffAlive(gs, rank, live) <==> HasDead(gs, live) || NoneLeafless(gs, rank)
  {
    forall g | g in gs.at
      ensures g in PruneResult(gs, live).at <==>
              (if HasDead(gs, live) then Alive(Leaves(gs, rank, g), live) != [] else true)
      ensures !HasDead(gs, live) ==> Alive(Leaves(gs, rank, g), live) == Leaves(gs, rank, g)
    {
      if HasDead(gs, live) { PrunedExactly(gs, rank, live, g); } else { NoDeadGroup(gs, rank, live, g); }
    }
  }

  /** No group is empty and no subgroup reference dangles. */
  ghost predicate Tidy(gs: GroupMap) {
    forall g :: g in gs.at ==> gs.at[g].members != [] && forall m :: m in gs.at[g].members && m.Sub? ==> m.id in gs.at
  }

  lemma {:induction false} TidyHasLeaf(gs: GroupMap, rank: map<Id, nat>, g: Id)
    requires Ranked(gs, rank) && Tidy(gs) && g in gs.at
    ensures Leaves(gs, rank, g) != []
    decreases rank[g]
  {
    MembersBelow(gs, rank, g);
    var ms := gs.at[g].members;
    assert ms[0] in ms;
    if ms[0].Sub? { TidyHasLeaf(gs, rank, ms[0].id); }
    assert LeavesAt(gs, rank, ms[0], rank[g]) != [];
  }

  /** On groups in good order pruning keeps a group exactly when it had a live leaf. */
  lemma TidyPrune(gs: GroupMap, rank: map<Id, nat>, live: set<Id>)
    requires IsMap(gs) && Ranked(gs, rank) && Tidy(gs)
    ensures KeptIffAlive(gs, rank, live)
  {
    forall g | g in gs.at ensures Leaves(gs, rank, g) != [] { TidyHasLeaf(gs, rank, g); }
    PruneExactlyWhen(gs, rank, live);
  }

  /** An empty group that was there to begin with outlives a pruning that finds no dead node, and goes with one that
  does. */
  lemma EmptyGroupStands(gs: GroupMap, rank: map<Id, nat>, live: set<Id>)
    requires gs == GroupMap(["e", "g"], map["e" := Group("e", "", [], false),
                                            "g" := Group("g", "", [Node("a")], false)])
    requires rank == map["e" := 0, "g" := 0]
    ensures IsMap(gs) && Ranked(gs, rank) && (KeptIffAlive(gs, rank, live) <==> "a" !in live)
  {
    assert gs.keys[1] == "g" && Node("a") in gs.at["g"].members;
    assert Leaves(gs, rank, "e") == [];
    PruneExactlyWhen(gs, rank, live);
  }
}
