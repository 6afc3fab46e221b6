/** Walking up and down the groups as they come, cycles included: when a walk ends, and what it yields. */
module GroupWalks {
  import opened Wrappers
  import opened Groups
  import opened GroupEdits
  import opened Ancestors

  // ---- Up ----

  function SubIds(gs: GroupMap): set<Id> { set g, m | g in gs.at && m in gs.at[g].members && m.Sub? :: m.id }

  /** Each group that is listed, and the first group that lists it. */
  function UpMap(gs: GroupMap): map<Id, Id> {
    map id | id in SubIds(gs) && ParentOf(gs, Sub(id)).Some? :: ParentOf(gs, Sub(id)).value
  }

  lemma {:induction false} ListedSomewhere(gs: GroupMap, keys: seq<Id>, m: Member)
    requires FirstListing(gs, keys, m).Some?
    ensures exists g :: g in gs.at && m in gs.at[g].members
  {
    if !(keys[0] in gs.at && m in gs.at[keys[0]].members) { ListedSomewhere(gs, keys[1..], m); }
  }

  lemma UpMapIs(gs: GroupMap, id: Id)
    ensures ParentOf(gs, Sub(id)) == if id in UpMap(gs) then Some(UpMap(gs)[id]) else None
  {
    if ParentOf(gs, Sub(id)).Some? { ListedSomewhere(gs, gs.keys, Sub(id)); }
  }

  /** The walk up from a node ends: it does unless it meets a group that is its own ancestor. */
  ghost predicate NodeWalkEnds(gs: GroupMap, node: Id) {
    var p := ParentOf(gs, Node(node));
    p.Some? ==> WalkEnds(UpMap(gs), p.value)
  }

  /** The groups the walk up from a node passes, innermost first. */
  ghost function GroupsUp(gs: GroupMap, node: Id): seq<Id>
    requires NodeWalkEnds(gs, node)
  {
    match ParentOf(gs, Node(node)) case None => [] case Some(p) => Chain(UpMap(gs), p)
  }

  method TopGroupOfNode(gs: GroupMap, node: Id) returns (top: Option<Id>)
    requires NodeWalkEnds(gs, node)
    ensures var up := GroupsUp(gs, node); top == if up == [] then None else Some(up[|up| - 1])
  {
    var first := ParentOf(gs, Node(node));
    if first == None { return None; }
    var current := first.value;
    ghost var up := GroupsUp(gs, node);
    while true
      invariant WalkEnds(UpMap(gs), current)
      invariant var rest := Chain(UpMap(gs), current); rest[|rest| - 1] == up[|up| - 1]
      decreases Steps(UpMap(gs), current)
    {
      var next := ParentOf(gs, Sub(current));
      UpMapIs(gs, current);
      if next == None { return Some(current); }
      ParentIsCloser(UpMap(gs), current);
      current := next.value;
    }
  }

  // ---- Up to a locked group ----

  predicate IsLocked(gs: GroupMap, g: Id) { g in gs.at && gs.at[g].locked }

  ghost predicate StopsAt(gs: GroupMap, p: Id, n: nat) {
    var at := Up(UpMap(gs), p, n);
    at.None? || IsLocked(gs, at.value)
  }

  /** The walk up from group `p` that looks for a locked group ends. */
  ghost predicate LockWalkEnds(gs: GroupMap, p: Id) { exists n: nat :: StopsAt(gs, p, n) }

  ghost predicate MeetsLocked(gs: GroupMap, p: Id) {
    exists n: nat :: Up(UpMap(gs), p, n).Some? && IsLocked(gs, Up(UpMap(gs), p, n).value)
  }

  /** It does unless the walk meets a group that is its own ancestor and no locked one. */
  lemma LockWalkEndsExactly(gs: GroupMap, p: Id)
    ensures LockWalkEnds(gs, p) <==> !MeetsCycle(UpMap(gs), p) || MeetsLocked(gs, p)
  {
    WalkEndsExactly(UpMap(gs), p);
    if WalkEnds(UpMap(gs), p) {
      var n: nat :| Up(UpMap(gs), p, n).None?;
      assert StopsAt(gs, p, n);
    }
    if MeetsLocked(gs, p) {
      var n: nat :| Up(UpMap(gs), p, n).Some? && IsLocked(gs, Up(UpMap(gs), p, n).value);
      assert StopsAt(gs, p, n);
    }
    if LockWalkEnds(gs, p) {
      var n: nat :| StopsAt(gs, p, n);
      assert WalkEnds(UpMap(gs), p) || MeetsLocked(gs, p);
    }
  }

  lemma EndedStaysEnded(up: map<Id, Id>, p: Id, k: nat, n: nat)
    requires Up(up, p, k).None? && k <= n
    ensures Up(up, p, n).None?
  {
    UpAdds(up, p, k, n - k);
  }

  lemma OneUp(gs: GroupMap, p: Id, k: nat)
    requires Up(UpMap(gs), p, k).Some?
    ensures Up(UpMap(gs), p, k + 1) == ParentOf(gs, Sub(Up(UpMap(gs), p, k).value))
  {
    var at := Up(UpMap(gs), p, k).value;
    UpAdds(UpMap(gs), p, k, 1);
    UpMapIs(gs, at);
    assert Up(UpMap(gs), at, 1) == if at in UpMap(gs) then Up(UpMap(gs), UpMap(gs)[at], 0) else None;
  }

  /** True exactly when some group the walk up passes is locked. */
  method PathLocked(gs: GroupMap, node: Id) returns (locked: bool)
    requires ParentOf(gs, Node(node)).Some? ==> LockWalkEnds(gs, ParentOf(gs, Node(node)).value)
    ensures locked <==> ParentOf(gs, Node(node)).Some? && MeetsLocked(gs, ParentOf(gs, Node(node)).value)
  {
    var current := ParentOf(gs, Node(node));
    if current == None { return false; }
    ghost var p, k: nat := current.value, 0;
    ghost var end: nat :| StopsAt(gs, p, end);
    while current.Some?
      invariant k <= end + 1 && Up(UpMap(gs), p, k) == current
      invariant forall m: nat :: m < k ==> !StopsAt(gs, p, m)
      decreases end + 1 - k
    {
      if current.value in gs.at && gs.at[current.value].locked { return true; }
      OneUp(gs, p, k);
      assert !StopsAt(gs, p, k);
      k := k + 1;
      current := ParentOf(gs, Sub(current.value));
    }
    forall n: nat ensures !(Up(UpMap(gs), p, n).Some? && IsLocked(gs, Up(UpMap(gs), p, n).value)) {
      if n < k { assert !StopsAt(gs, p, n); } else { EndedStaysEnded(UpMap(gs), p, k, n); }
    }
    return false;
  }

  // ---- Down ----

  /** Groups each of which lists the next. */
  ghost predicate Descends(gs: GroupMap, c: seq<Id>) {
    && c != [] && (forall i :: 0 <= i < |c| ==> c[i] in gs.at)
    && forall i :: 0 < i < |c| ==> Sub(c[i]) in gs.at[c[i - 1]].members
  }

  ghost predicate Leads(gs: GroupMap, c: seq<Id>, a: Id, b: Id) { Descends(gs, c) && c[0] == a && c[|c| - 1] == b }

  ghost predicate Reaches(gs: GroupMap, a: Id, b: Id) { exists c :: Leads(gs, c, a, b) }

  ghost predicate UnderItself(gs: GroupMap, g: Id) { exists c :: |c| > 1 && Leads(gs, c, g, g) }

  ghost predicate ReachesCycle(gs: GroupMap, id: Id) { exists g :: Reaches(gs, id, g) && UnderItself(gs, g) }

  /** Within `n` levels the descent from `id` has come to an end everywhere. */
  ghost predicate EndsWithin(gs: GroupMap, id: Id, n: nat)
    decreases n
  {
    id in gs.at ==> n > 0 && forall m :: m in gs.at[id].members && m.Sub? ==> EndsWithin(gs, m.id, n - 1)
  }

  ghost predicate DescentEnds(gs: GroupMap, id: Id) { exists n: nat :: EndsWithin(gs, id, n) }

  lemma {:induction false} NoLongDescent(gs: GroupMap, c: seq<Id>, n: nat)
    requires Descends(gs, c) && |c| > n
    ensures !EndsWithin(gs, c[0], n)
    decreases n
  {
    if n > 0 {
      var rest := c[1..];
      assert forall i :: 0 < i < |rest| ==> rest[i] == c[i + 1] && rest[i - 1] == c[i];
      NoLongDescent(gs, rest, n - 1);
      assert Sub(c[1]) in gs.at[c[0]].members;
    }
  }

  lemma {:induction false} LongDescent(gs: GroupMap, id: Id, n: nat) returns (c: seq<Id>)
    requires !EndsWithin(gs, id, n)
    ensures Descends(gs, c) && c[0] == id && |c| == n + 1
    decreases n
  {
    if n == 0 {
      c := [id];
    } else {
      var m :| m in gs.at[id].members && m.Sub? && !EndsWithin(gs, m.id, n - 1);
      var rest := LongDescent(gs, m.id, n - 1);
      c := [id] + rest;
      forall i | 0 < i < |c| ensures Sub(c[i]) in gs.at[c[i - 1]].members {
        if i > 1 { assert Sub(rest[i - 1]) in gs.at[rest[i - 2]].members; }
      }
    }
  }

  lemma Joined(gs: GroupMap, a: seq<Id>, b: seq<Id>)
    requires Descends(gs, a) && Descends(gs, b) && a[|a| - 1] == b[0]
    ensures Descends(gs, a + b[1..]) && (a + b[1..])[0] == a[0] && (a + b[1..])[|a + b[1..]| - 1] == b[|b| - 1]
  {
    var c := a + b[1..];
    forall i | 0 < i < |c| ensures Sub(c[i]) in gs.at[c[i - 1]].members {
      if i >= |a| { assert c[i] == b[i - |a| + 1] && c[i - 1] == b[i - |a|]; }
    }
  }

  /** Round a cycle the descent goes on for ever. */
  lemma {:induction false} Rounds(gs: GroupMap, g: Id, round: seq<Id>, n: nat) returns (c: seq<Id>)
    requires |round| > 1 && Leads(gs, round, g, g)
    ensures Descends(gs, c) && c[0] == g && c[|c| - 1] == g && |c| > n
  {
    if n == 0 {
      c := round;
    } else {
      c := Rounds(gs, g, round, n - 1);
      Joined(gs, c, round);
      c := c + round[1..];
    }
  }

  lemma CycleIsEndless(gs: GroupMap, id: Id)
    requires ReachesCycle(gs, id)
    ensures !DescentEnds(gs, id)
  {
    var g :| Reaches(gs, id, g) && UnderItself(gs, g);
    var way :| Leads(gs, way, id, g);
    var round :| |round| > 1 && Leads(gs, round, g, g);
    forall n: nat ensures !EndsWithin(gs, id, n) {
      var c := Rounds(gs, g, round, n);
      Joined(gs, way, c);
      NoLongDescent(gs, way + c[1..], n);
    }
  }

  lemma PartDescends(gs: GroupMap, c: seq<Id>, i: nat, j: nat)
    requires Descends(gs, c) && i < j <= |c|
    ensures Descends(gs, c[i..j])
  {
    var part := c[i..j];
    forall k | 0 < k < |part| ensures Sub(part[k]) in gs.at[part[k - 1]].members {
      assert part[k] == c[i + k] && part[k - 1] == c[i + k - 1];
    }
  }

  lemma RepeatIsCycle(gs: GroupMap, c: seq<Id>, i: nat, j: nat)
    requires Descends(gs, c) && i < j < |c| && c[i] == c[j]
    ensures ReachesCycle(gs, c[0])
  {
    PartDescends(gs, c, 0, i + 1);
    PartDescends(gs, c, i, j + 1);
    assert Leads(gs, c[0..i + 1], c[0], c[i]) && Leads(gs, c[i..j + 1], c[i], c[i]);
    assert Reaches(gs, c[0], c[i]) && UnderItself(gs, c[i]);
  }

  /** The descent from `id` ends exactly when it reaches no group that is under itself. */
  lemma DescentEndsExactly(gs: GroupMap, id: Id)
    ensures DescentEnds(gs, id) <==> !ReachesCycle(gs, id)
  {
    if ReachesCycle(gs, id) {
      CycleIsEndless(gs, id);
    } else if !EndsWithin(gs, id, |gs.at.Keys|) {
      var c := LongDescent(gs, id, |gs.at.Keys|);
      if i, j :| 0 <= i < j < |c| && c[i] == c[j] { RepeatIsCycle(gs, c, i, j); }
      DistinctFits(c, gs.at.Keys);
    }
  }

  // ---- Leaves ----

  /** The nodes under `id`, in member order. */
  ghost function LeavesUnder(gs: GroupMap, id: Id, n: nat): seq<Id>
    requires EndsWithin(gs, id, n)
    decreases n, 0
  {
    if id in gs.at then LeavesAmong(gs, gs.at[id].members, n - 1) else []
  }

  ghost function LeavesAmong(gs: GroupMap, ms: seq<Member>, n: nat): seq<Id>
    requires forall m :: m in ms && m.Sub? ==> EndsWithin(gs, m.id, n)
    decreases n, |ms| + 1
  {
    if ms == [] then []
    else (if ms[0].Node? then [ms[0].id] else LeavesUnder(gs, ms[0].id, n)) + LeavesAmong(gs, ms[1..], n)
  }

  lemma {:induction false} LeavesAmongSnoc(gs: GroupMap, ms: seq<Member>, m: Member, n: nat)
    requires forall x :: x in ms + [m] && x.Sub? ==> EndsWithin(gs, x.id, n)
    ensures LeavesAmong(gs, ms + [m], n) ==
            LeavesAmong(gs, ms, n) + if m.Node? then [m.id] else assert m in ms + [m]; LeavesUnder(gs, m.id, n)
    decreases |ms|
  {
    if ms == [] {
      assert [] + [m] == [m] && [m][1..] == [];
    } else {
      assert (ms + [m])[0] == ms[0] && (ms + [m])[1..] == ms[1..] + [m];
      LeavesAmongSnoc(gs, ms[1..], m, n);
    }
  }

  /** Collects the leaves by walking the members and recursing into subgroups. */
  method LeafNodes(gs: GroupMap, id: Id, ghost n: nat) returns (out: seq<Id>)
    requires EndsWithin(gs, id, n)
    ensures out == LeavesUnder(gs, id, n)
    decreases n
  {
    if id !in gs.at { return []; }
    out := [];
    var ms := gs.at[id].members;
    for i := 0 to |ms|
      invariant out == LeavesAmong(gs, ms[..i], n - 1)
    {
      assert ms[..i + 1] == ms[..i] + [ms[i]];
      LeavesAmongSnoc(gs, ms[..i], ms[i], n - 1);
      if ms[i].Node? {
        out := out + [ms[i].id];
      } else {
        var sub := LeafNodes(gs, ms[i].id, n - 1);
        out := out + sub;
      }
    }
    assert ms[..|ms|] == ms;
  }

  /** How many levels are allowed for does not matter. */
  lemma {:induction false} LevelsDoNotMatter(gs: GroupMap, id: Id, n: nat, k: nat)
    requires EndsWithin(gs, id, n) && EndsWithin(gs, id, k)
    ensures LeavesUnder(gs, id, n) == LeavesUnder(gs, id, k)
    decreases n, 0
  {
    if id in gs.at { LevelsDoNotMatterAmong(gs, gs.at[id].members, n - 1, k - 1); }
  }

  lemma {:induction false} LevelsDoNotMatterAmong(gs: GroupMap, ms: seq<Member>, n: nat, k: nat)
    requires forall m :: m in ms && m.Sub? ==> EndsWithin(gs, m.id, n) && EndsWithin(gs, m.id, k)
    ensures LeavesAmong(gs, ms, n) == LeavesAmong(gs, ms, k)
    decreases n, |ms| + 1
  {
    if ms != [] {
      if ms[0].Sub? { LevelsDoNotMatter(gs, ms[0].id, n, k); }
      LevelsDoNotMatterAmong(gs, ms[1..], n, k);
    }
  }

  ghost predicate AmongHas(gs: GroupMap, ms: seq<Member>, n: nat, node: Id)
    requires forall m :: m in ms && m.Sub? ==> EndsWithin(gs, m.id, n)
  {
    exists m :: m in ms && if m.Node? then m.id == node else node in LeavesUnder(gs, m.id, n)
  }

  lemma {:induction false} AmongExactly(gs: GroupMap, ms: seq<Member>, n: nat, node: Id)
    requires forall m :: m in ms && m.Sub? ==> EndsWithin(gs, m.id, n)
    ensures node in LeavesAmong(gs, ms, n) <==> AmongHas(gs, ms, n, node)
    decreases |ms|
  {
    if ms != [] {
      AmongExactly(gs, ms[1..], n, node);
      assert forall m :: m in ms <==> m == ms[0] || m in ms[1..];
    }
  }

  lemma Prepended(gs: GroupMap, id: Id, c: seq<Id>)
    requires id in gs.at && Descends(gs, c) && Sub(c[0]) in gs.at[id].members
    ensures Descends(gs, [id] + c)
  {
    var d := [id] + c;
    forall i | 0 < i < |d| ensures Sub(d[i]) in gs.at[d[i - 1]].members {
      if i > 1 { assert Sub(c[i - 1]) in gs.at[c[i - 2]].members; }
    }
  }

  /** The leaves are the nodes listed by the groups that are reached. */
  lemma {:induction false} LeavesAreReached(gs: GroupMap, id: Id, n: nat, node: Id)
    requires EndsWithin(gs, id, n)
    ensures node in LeavesUnder(gs, id, n) <==> exists g :: Reaches(gs, id, g) && Lists(gs, g, Node(node))
    decreases n
  {
    if id in gs.at {
      var ms := gs.at[id].members;
      AmongExactly(gs, ms, n - 1, node);
      forall m | m in ms && m.Sub? ensures (node in LeavesUnder(gs, m.id, n - 1) <==>
                                            exists g :: Reaches(gs, m.id, g) && Lists(gs, g, Node(node)))
      {
        LeavesAreReached(gs, m.id, n - 1, node);
      }
      if AmongHas(gs, ms, n - 1, node) {
        var m :| m in ms && if m.Node? then m.id == node else node in LeavesUnder(gs, m.id, n - 1);
        LeafIsReached(gs, id, m, node);
      }
      if g :| Reaches(gs, id, g) && Lists(gs, g, Node(node)) {
        var m := ReachedThrough(gs, id, g, node);
      }
    } else {
      ReachesFromGroup(gs, id);
    }
  }

  lemma ReachesFromGroup(gs: GroupMap, id: Id)
    ensures (exists g :: Reaches(gs, id, g)) ==> id in gs.at
  {
    if g :| Reaches(gs, id, g) {
      var c :| Leads(gs, c, id, g);
    }
  }

  lemma LeafIsReached(gs: GroupMap, id: Id, m: Member, node: Id)
    requires Lists(gs, id, m)
    requires m == Node(node) || (m.Sub? && exists g :: Reaches(gs, m.id, g) && Lists(gs, g, Node(node)))
    ensures exists g :: Reaches(gs, id, g) && Lists(gs, g, Node(node))
  {
    if m == Node(node) {
      assert Leads(gs, [id], id, id);
      assert Reaches(gs, id, id);
    } else {
      var g :| Reaches(gs, m.id, g) && Lists(gs, g, Node(node));
      var c :| Leads(gs, c, m.id, g);
      Prepended(gs, id, c);
      assert Leads(gs, [id] + c, id, g);
    }
  }

  lemma ReachedThrough(gs: GroupMap, id: Id, g: Id, node: Id) returns (m: Member)
    requires Reaches(gs, id, g) && Lists(gs, g, Node(node))
    ensures Lists(gs, id, m)
    ensures m == Node(node) || (m.Sub? && Reaches(gs, m.id, g))
  {
    var c :| Leads(gs, c, id, g);
    if |c| == 1 {
      m := Node(node);
    } else {
      m := Sub(c[1]);
      PartDescends(gs, c, 1, |c|);
      assert Leads(gs, c[1..|c|], c[1], g);
    }
  }

  // ---- Where nesting is acyclic ----

  /** The descent ends within a group's rank, and collects its leaves. */
  lemma {:induction false} RankedDescends(gs: GroupMap, rank: map<Id, nat>, g: Id)
    requires Ranked(gs, rank) && g in gs.at
    ensures EndsWithin(gs, g, rank[g] + 1) && LeavesUnder(gs, g, rank[g] + 1) == Leaves(gs, rank, g)
    decreases rank[g], |gs.at[g].members| + 1
  {
    MembersBelow(gs, rank, g);
    RankedDescendsAmong(gs, rank, gs.at[g].members, rank[g]);
  }

  lemma {:induction false} MoreLevels(gs: GroupMap, id: Id, n: nat, k: nat)
    requires EndsWithin(gs, id, n) && n <= k
    ensures EndsWithin(gs, id, k)
    decreases n
  {
    if id in gs.at {
      forall m | m in gs.at[id].members && m.Sub? ensures EndsWithin(gs, m.id, k - 1) {
        MoreLevels(gs, m.id, n - 1, k - 1);
      }
    }
  }

  lemma {:induction false} RankedDescendsAmong(gs: GroupMap, rank: map<Id, nat>, ms: seq<Member>, bound: nat)
    requires Ranked(gs, rank) && Below(gs, rank, ms, bound)
    ensures forall m :: m in ms && m.Sub? ==> EndsWithin(gs, m.id, bound)
    ensures LeavesAmong(gs, ms, bound) == LeavesOf(gs, rank, ms, bound)
    decreases bound, |ms|
  {
    if ms != [] {
      RankedDescendsAmong(gs, rank, ms[1..], bound);
      var m := ms[0];
      if m.Sub? && m.id in gs.at {
        RankedDescends(gs, rank, m.id);
        MoreLevels(gs, m.id, rank[m.id] + 1, bound);
        LevelsDoNotMatter(gs, m.id, rank[m.id] + 1, bound);
      }
    }
  }

  /** The walk up ends, and passes the groups around the node. */
  lemma {:induction false} RankedWalks(gs: GroupMap, rank: map<Id, nat>, g: Id)
    requires WellKeyed(gs) && Ranked(gs, rank)
    ensures WalkEnds(UpMap(gs), g) && Chain(UpMap(gs), g) == [g] + Around(gs, rank, Sub(g))
    decreases Higher(gs, rank, Sub(g))
  {
    UpMapIs(gs, g);
    if g in UpMap(gs) {
      ParentIsHigher(gs, rank, Sub(g));
      RankedWalks(gs, rank, UpMap(gs)[g]);
      var n: nat :| Up(UpMap(gs), UpMap(gs)[g], n).None?;
      assert Up(UpMap(gs), g, n + 1).None?;
    } else {
      assert Up(UpMap(gs), g, 1).None?;
    }
  }

  lemma RankedNodeWalks(gs: GroupMap, rank: map<Id, nat>, node: Id)
    requires WellKeyed(gs) && Ranked(gs, rank)
    ensures NodeWalkEnds(gs, node) && GroupsUp(gs, node) == Around(gs, rank, Node(node))
  {
    var p := ParentOf(gs, Node(node));
    if p.Some? { RankedWalks(gs, rank, p.value); }
  }

  // ---- Two groups that list each other ----

  function EachOther(locked: bool): GroupMap {
    GroupMap(["a", "b"], map["a" := Group("a", "", [Sub("b")], locked),
                             "b" := Group("b", "", [Sub("a"), Node("n")], false)])
  }

  lemma EachOtherListed(gs: GroupMap)
    requires exists locked :: gs == EachOther(locked)
    ensures IsMap(gs) && Sub("a") in gs.at["b"].members && Sub("b") in gs.at["a"].members
    ensures ParentOf(gs, Node("n")) == Some("b")
    ensures ParentOf(gs, Sub("a")) == Some("b") && ParentOf(gs, Sub("b")) == Some("a")
  {
    assert gs.keys[1..] == ["b"];
    assert gs.at["b"].members == [Sub("a"), Node("n")] && gs.at["a"].members == [Sub("b")];
    assert gs.at["b"].members[1] == Node("n") && gs.at["b"].members[0] == Sub("a") && gs.at["a"].members[0] == Sub("b");
  }

  lemma EachOtherDescends(gs: GroupMap)
    requires "a" in gs.at && "b" in gs.at && Sub("a") in gs.at["b"].members && Sub("b") in gs.at["a"].members
    ensures !DescentEnds(gs, "a")
  {
    assert Leads(gs, ["a"], "a", "a") && Leads(gs, ["a", "b", "a"], "a", "a");
    assert Reaches(gs, "a", "a") && UnderItself(gs, "a");
    CycleIsEndless(gs, "a");
  }

  /** None of the walks ends, up or down, but the one that looks for a locked group and finds one. */
  lemma EachOtherGoesRound(locked: bool)
    ensures IsMap(EachOther(locked)) && ParentOf(EachOther(locked), Node("n")) == Some("b")
    ensures !NodeWalkEnds(EachOther(locked), "n") && !DescentEnds(EachOther(locked), "a")
    ensures LockWalkEnds(EachOther(locked), "b") <==> locked
  {
    var gs := EachOther(locked);
    hide ParentOf, UpMap, DescentEnds, LockWalkEnds, WalkEnds;
    EachOtherListed(gs);
    EachOtherDescends(gs);
    UpMapIs(gs, "a");
    UpMapIs(gs, "b");
    TwoGoRound(UpMap(gs), "a", "b");
    LocksMet(gs, locked);
  }

  lemma LocksMet(gs: GroupMap, locked: bool)
    requires gs == EachOther(locked) && "a" in UpMap(gs) && UpMap(gs)["a"] == "b" && "b" in UpMap(gs) &&
             UpMap(gs)["b"] == "a"
    ensures LockWalkEnds(gs, "b") <==> locked
  {
    if locked {
      assert Up(UpMap(gs), "b", 1) == Up(UpMap(gs), "a", 0) == Some("a");
      assert StopsAt(gs, "b", 1);
    } else {
      forall n: nat ensures !StopsAt(gs, "b", n) { UpStaysInside(gs, n); }
    }
  }

  lemma {:induction false} UpStaysInside(gs: GroupMap, n: nat)
    requires "a" in UpMap(gs) && UpMap(gs)["a"] == "b" && "b" in UpMap(gs) && UpMap(gs)["b"] == "a"
    ensures Up(UpMap(gs), "a", n) == Some("a") || Up(UpMap(gs), "a", n) == Some("b")
    ensures Up(UpMap(gs), "b", n) == Some("a") || Up(UpMap(gs), "b", n) == Some("b")
  {
    if n > 0 { UpStaysInside(gs, n - 1); }
  }
}
