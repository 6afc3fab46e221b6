/** Whole runs of local operations and peers' changes on a replica: the groups stay well listed, and the shared
containers stay in agreement with the cache. Beside it, the inputs on which they part. */
module SessionRuns {
  import opened Wrappers
  import opened Groups
  import opened GroupEdits
  import opened GroupPrune
  import opened OverlayCodec
  import opened SharedOverlay
  import opened SharedEdits
  import opened Session

  // ---- Each member is listed once ----

  ghost predicate Distinct(ms: seq<Member>) { forall i, j :: 0 <= i < j < |ms| ==> ms[i] != ms[j] }

  ghost predicate DistinctIn(gs: GroupMap) { forall g :: g in gs.at ==> Distinct(gs.at[g].members) }

  /** No group lists a member twice, and no two groups list the same one. */
  ghost predicate WellListed(gs: GroupMap) {
    && DistinctIn(gs)
    && forall g, h, m :: Lists(gs, g, m) && Lists(gs, h, m) ==> g == h
  }

  /** Members that may be grouped together: different ones, in no group yet. */
  ghost predicate Ungrouped(gs: GroupMap, units: seq<Member>) {
    Distinct(units) && forall m, g :: m in units ==> !Lists(gs, g, m)
  }

  lemma {:induction false} DistinctConcat(a: seq<Member>, b: seq<Member>)
    requires Distinct(a) && Distinct(b) && forall m :: m in a ==> m !in b
    ensures Distinct(a + b)
  {
    var ms := a + b;
    forall i, j | 0 <= i < j < |ms| ensures ms[i] != ms[j] {
      if i < |a| <= j { assert ms[i] in a && ms[j] in b; }
    }
  }

  lemma {:induction false} DistinctTail(ms: seq<Member>)
    requires ms != []
    ensures Distinct(ms) <==> Distinct(ms[1..]) && ms[0] !in ms[1..]
  {
    if Distinct(ms[1..]) && ms[0] !in ms[1..] {
      assert Distinct([ms[0]]);
      DistinctConcat([ms[0]], ms[1..]);
      assert ms == [ms[0]] + ms[1..];
    }
    if Distinct(ms) {
      forall i, j | 0 <= i < j < |ms[1..]| ensures ms[1..][i] != ms[1..][j] { assert ms[i + 1] != ms[j + 1]; }
    }
  }

  lemma {:induction false} ReferencedOnce(ms: seq<Member>, d: Id)
    requires Distinct(ms)
    ensures References(ms, d) <= 1 && (Sub(d) !in ms ==> References(ms, d) == 0)
  {
    if ms != [] {
      DistinctTail(ms);
      ReferencedOnce(ms[1..], d);
    }
  }

  lemma {:induction false} FlattenedDistinct(ms: seq<Member>, d: Id, freed: seq<Member>)
    requires Distinct(ms) && Distinct(freed) && forall m :: m in freed ==> m !in ms
    ensures Distinct(Flattened(ms, d, freed))
  {
    if ms != [] {
      DistinctTail(ms);
      FlattenedDistinct(ms[1..], d, freed);
      if ms[0] == Sub(d) {
        FlattenedWithout(ms[1..], d, freed);
        DistinctConcat(freed, ms[1..]);
      } else {
        FlattenedHas(ms[1..], d, freed, ms[0]);
        assert Distinct([ms[0]]);
        DistinctConcat([ms[0]], Flattened(ms[1..], d, freed));
      }
    }
  }

  lemma {:induction false} OnlyDistinct(ms: seq<Member>, keep: set<Member>)
    requires Distinct(ms)
    ensures Distinct(Only(ms, keep)) && forall m :: m in Only(ms, keep) ==> m in ms
  {
    if ms != [] {
      DistinctTail(ms);
      OnlyDistinct(ms[1..], keep);
      assert Distinct([ms[0]]);
      if ms[0] in keep {
        DistinctConcat([ms[0]], Only(ms[1..], keep));
      } else {
        assert Only(ms, keep) == Only(ms[1..], keep);
      }
    }
  }

  // ---- Well-listed groups stay so ----

  /** What a group lists after a dissolve: what it listed, or what the dissolved group did. */
  lemma UngroupLists(gs: GroupMap, d: Id, g: Id, m: Member)
    requires d in gs.at && Lists(Ungroup(gs, d), g, m)
    ensures g in gs.at && g != d && (Lists(gs, g, m) ||
                                     (Lists(gs, d, m) && ParentOf(gs, Sub(d)) == Some(g) && Lists(gs, g, Sub(d))))
  {
    var p := ParentOf(gs, Sub(d));
    if p == Some(g) && g in gs.at - {d} { FlattenedHas(gs.at[g].members, d, gs.at[d].members, m); }
  }

  lemma UngroupMembers(gs: GroupMap, d: Id, g: Id)
    requires d in gs.at && g in Ungroup(gs, d).at
    ensures g in gs.at && g != d
    ensures Ungroup(gs, d).at[g].members ==
            if ParentOf(gs, Sub(d)) == Some(g) then Flattened(gs.at[g].members, d, gs.at[d].members)
            else gs.at[g].members
  {
  }

  lemma UngroupWellListed(gs: GroupMap, d: Id)
    requires WellListed(gs) && d in gs.at
    ensures WellListed(Ungroup(gs, d))
  {
    var next := Ungroup(gs, d);
    forall g | g in next.at ensures Distinct(next.at[g].members) {
      UngroupMembers(gs, d, g);
      if ParentOf(gs, Sub(d)) == Some(g) {
        assert forall m :: m in gs.at[d].members && m in gs.at[g].members ==> Lists(gs, d, m) && Lists(gs, g, m);
        FlattenedDistinct(gs.at[g].members, d, gs.at[d].members);
      }
    }
    forall g, h, m | Lists(next, g, m) && Lists(next, h, m) ensures g == h {
      UngroupLists(gs, d, g, m);
      UngroupLists(gs, d, h, m);
    }
  }

  lemma PruneWellListed(gs: GroupMap, live: set<Id>)
    requires IsMap(gs) && WellListed(gs)
    ensures WellListed(Pruned(gs, live))
  {
    hide Pruned, Only, IsMap;
    var next := Pruned(gs, live);
    forall g | g in next.at
      ensures g in gs.at && Distinct(next.at[g].members)
      ensures forall m :: m in next.at[g].members ==> m in gs.at[g].members
    {
      PrunedIsOnly(gs, live, g);
      OnlyDistinct(gs.at[g].members, set m | m in next.at[g].members);
    }
    forall g, h, m | Lists(next, g, m) && Lists(next, h, m) ensures g == h {
      assert Lists(gs, g, m) && Lists(gs, h, m);
    }
  }

  lemma SameMembersWellListed(gs: GroupMap, next: GroupMap)
    requires WellListed(gs) && next.at.Keys == gs.at.Keys
    requires forall g :: g in gs.at ==> next.at[g].members == gs.at[g].members
    ensures WellListed(next)
  {
    forall g, h, m | Lists(next, g, m) && Lists(next, h, m) ensures g == h {
      assert Lists(gs, g, m) && Lists(gs, h, m);
    }
  }

  lemma AddWellListed(gs: GroupMap, g: Group)
    requires WellListed(gs) && Ungrouped(gs, g.members)
    ensures WellListed(WithGroup(gs, g))
  {
    var next := WithGroup(gs, g);
    forall x, y, m | Lists(next, x, m) && Lists(next, y, m) ensures x == y {
      assert x != g.id ==> Lists(gs, x, m);
      assert y != g.id ==> Lists(gs, y, m);
    }
  }

  // ---- Good operations on good replicas ----

  /** The ids still to be minted are not in use. */
  ghost predicate Unminted(minted: nat -> Id, n: nat, gs: GroupMap) { forall k: nat :: k >= n ==> minted(k) !in gs.at }

  ghost predicate Injective(minted: nat -> Id) { forall m: nat, n: nat :: minted(m) == minted(n) ==> m == n }

  /** What holds of the groups of a document in good order. */
  ghost predicate GoodGroups(minted: nat -> Id, gs: GroupMap, n: nat) {
    IsMap(gs) && WellListed(gs) && Unminted(minted, n, gs)
  }

  /** A replica in agreement with its shared containers, whose member lists are all still lists. */
  ghost predicate Good(minted: nat -> Id, s: Replica) {
    Synced(s) && AllContainers(s.yGroups) && GoodGroups(minted, s.cache.groups, s.groupSeq)
  }

  /** What the caller of a local operation sees to: values that can be stored, members that are not in a group yet, and
  replacements in good order. */
  ghost predicate GoodOp(minted: nat -> Id, s: Replica, op: Op) {
    match op
    case SetEdgeStyle(_, style) => style.Some? ==> ValidEdgeStyle(style.value)
    case ResizeNode(_, _, dim) => ValidSize(dim)
    case ReplaceOverrides(next) => EveryValue(next, ValidOverride)
    case GroupNodes(units) => Ungrouped(s.cache.groups, units)
    case Replace(all) =>
      EveryValue(all.overrides, ValidOverride) && EveryValue(all.edgeStyles, ValidEdgeStyle) &&
      GoodGroups(minted, all.groups, s.groupSeq)
    case _ => true
  }

  lemma GroupsStayGood(minted: nat -> Id, gs: GroupMap, op: Op, n: nat)
    requires Injective(minted) && GoodGroups(minted, gs, n) && ValidOp(op)
    requires op.GroupNodes? ==> Ungrouped(gs, op.units)
    requires op.Replace? ==> GoodGroups(minted, op.all.groups, n)
    ensures GoodGroups(minted, GroupsAfter(minted, gs, op, n), if op.GroupNodes? then n + 1 else n)
  {
    hide Ungroup, Pruned, HasDead, WellListed, Ungrouped, IsMap;
    var next := GroupsAfter(minted, gs, op, n);
    match op
    case GroupNodes(units) => AddWellListed(gs, Group(minted(n), "", units, false));
    case UngroupAt(top) =>
      if top in gs.at { UngroupWellListed(gs, top); } else { UngroupAbsent(gs, map[], top); }
      assert next.at.Keys <= gs.at.Keys by { if top in gs.at { KeysAfter(gs, top); } }
    case PruneTo(live) =>
      PruneWellListed(gs, live);
      forall k | k in Pruned(gs, live).at ensures k in gs.at { PrunedIsOnly(gs, live, k); }
    case SetLocked(id, locked) => SameMembersWellListed(gs, next);
    case SetLabel(id, caption) => SameMembersWellListed(gs, next);
    case _ =>
  }

  /** Where members are listed once and lists are lists, one splice always is enough. */
  lemma WellListedDissolves(gs: GroupMap, y: map<Id, SharedGroup>, d: Id)
    requires GroupsSynced(y, gs) && WellListed(gs) && AllContainers(y)
    ensures DissolveFollows(gs, y, d)
  {
    var p := ParentOf(gs, Sub(d));
    if d in gs.at && p.Some? && p.value in gs.at { ReferencedOnce(gs.at[p.value].members, d); }
  }

  lemma GoodFollows(minted: nat -> Id, s: Replica, op: Op)
    requires Good(minted, s) && GoodOp(minted, s, op)
    ensures ValidOp(op) && Follows(s, op)
  {
    hide OverridesSynced, EdgeStylesSynced, NodeStylesSynced, DissolveFollows;
    match op
    case UngroupAt(top) => WellListedDissolves(s.cache.groups, s.yGroups, top);
    case PruneTo(live) => ListsFollow(s.cache.groups, s.yGroups, live);
    case _ =>
  }

  lemma ListsFollow(gs: GroupMap, y: map<Id, SharedGroup>, live: set<Id>)
    requires GroupsSynced(y, gs) && AllContainers(y)
    ensures PruneFollows(gs, y, live)
  {
    hide Pruned;
  }

  lemma ListsStayLists(minted: nat -> Id, gs: GroupMap, y: map<Id, SharedGroup>, op: Op, n: nat)
    requires GroupsSynced(y, gs) && AllContainers(y) && ValidOp(op)
    ensures AllContainers(SharedAfter(minted, gs, y, op, n))
  {
    hide Ungroup, Dissolved, Pruned, PrunedShared, HasDead, Decoded;
    match op
    case UngroupAt(top) => if top in gs.at { DissolvedAgrees(gs, y, top); } else { UngroupAbsent(gs, y, top); }
    case PruneTo(live) => if HasDead(gs, live) { PrunedAgrees(gs, y, live); }
    case Replace(all) => BuiltAgrees(all.groups.at);
    case _ =>
  }

  lemma EditedParts(minted: nat -> Id, s: Replica, op: Op)
    requires IsMap(s.cache.groups) && ValidOp(op)
    ensures var t := Edited(minted, s, op);
            && t.cache.groups == GroupsAfter(minted, s.cache.groups, op, s.groupSeq)
            && t.yGroups == SharedAfter(minted, s.cache.groups, s.yGroups, op, s.groupSeq)
            && t.groupSeq == if op.GroupNodes? then s.groupSeq + 1 else s.groupSeq
  {
    hide Ungroup, Dissolved, Pruned, PrunedShared, HasDead;
  }

  /** Good operations keep a replica good. */
  lemma GoodStep(minted: nat -> Id, s: Replica, op: Op)
    requires Injective(minted) && Good(minted, s) && GoodOp(minted, s, op)
    ensures ValidOp(op) && Good(minted, Edited(minted, s, op))
  {
    GoodFollows(minted, s, op);
    FollowsExactly(minted, s, op);
    EditedParts(minted, s, op);
    ListsStayLists(minted, s.cache.groups, s.yGroups, op, s.groupSeq);
    hide GroupsAfter, SharedAfter, Edited, Follows;
    GroupsStayGood(minted, s.cache.groups, op, s.groupSeq);
  }

  // ---- Runs ----

  /** What happens to a replica: a local operation, or a peer's change. */
  datatype Step = Local(op: Op) | FromPeer(change: Change)

  ghost predicate ValidStep(step: Step) {
    match step case Local(op) => ValidOp(op) case FromPeer(m) => ValidChange(m)
  }

  ghost function After(minted: nat -> Id, s: Replica, step: Step): (t: Replica)
    requires IsMap(s.cache.groups) && ValidStep(step)
    ensures IsMap(t.cache.groups)
  {
    match step
    case Local(op) => Edited(minted, s, op)
    case FromPeer(m) => ReceivedIsMap(s, m); Received(s, m)
  }

  lemma ReceivedIsMap(s: Replica, m: Change)
    requires IsMap(s.cache.groups) && ValidChange(m)
    ensures IsMap(Received(s, m).cache.groups)
  {
    ChangeSyncsExactly(s, m);
    hide Received, Materialize;
  }

  /** What everyone involved sees to: a local operation is good where it is made, and a peer's change can be decoded and
  leaves lists that are lists and groups in good order. */
  ghost predicate GoodStepAt(minted: nat -> Id, s: Replica, step: Step)
    requires ValidStep(step)
  {
    match step
    case Local(op) => GoodOp(minted, s, op)
    case FromPeer(m) =>
      CanDecode(m) && AllContainers(m.yGroups) && GoodGroups(minted, Received(s, m).cache.groups, s.groupSeq)
  }

  ghost function Run(minted: nat -> Id, s: Replica, steps: seq<Step>): Replica
    requires IsMap(s.cache.groups) && forall x :: x in steps ==> ValidStep(x)
    decreases |steps|
  {
    if steps == [] then s
    else
      assert steps[0] in steps;
      Run(minted, After(minted, s, steps[0]), steps[1..])
  }

  ghost predicate GoodRun(minted: nat -> Id, s: Replica, steps: seq<Step>)
    requires IsMap(s.cache.groups) && forall x :: x in steps ==> ValidStep(x)
    decreases |steps|
  {
    steps != [] ==>
      assert steps[0] in steps;
      GoodStepAt(minted, s, steps[0]) && GoodRun(minted, After(minted, s, steps[0]), steps[1..])
  }

  lemma GoodStaysGood(minted: nat -> Id, s: Replica, step: Step)
    requires Injective(minted) && Good(minted, s) && ValidStep(step) && GoodStepAt(minted, s, step)
    ensures IsMap(s.cache.groups) && Good(minted, After(minted, s, step))
  {
    match step
    case Local(op) =>
      hide Edited, GoodOp;
      GoodStep(minted, s, op);
    case FromPeer(m) => ChangeSyncsExactly(s, m);
  }

  lemma {:induction false} GoodRunKeeps(minted: nat -> Id, s: Replica, steps: seq<Step>)
    requires Injective(minted) && Good(minted, s) && IsMap(s.cache.groups)
    requires (forall x :: x in steps ==> ValidStep(x)) && GoodRun(minted, s, steps)
    ensures Good(minted, Run(minted, s, steps))
    decreases |steps|
  {
    if steps != [] {
      hide Good, GoodStepAt, After, Injective, ValidStep;
      assert steps[0] in steps;
      GoodStaysGood(minted, s, steps[0]);
      GoodRunKeeps(minted, After(minted, s, steps[0]), steps[1..]);
    }
  }

  /** After any sequence of local operations and peers' changes in good order a peer decodes exactly what this replica
  caches, and the next id it mints is not in use. */
  lemma RunStaysDecoded(minted: nat -> Id, s: Replica, steps: seq<Step>, order: Order)
    requires Injective(minted) && Good(minted, s) && (forall x :: x in steps ==> ValidStep(x)) &&
             GoodRun(minted, s, steps)
    requires var t := Run(minted, s, steps); Listed(t.yOverrides, t.yGroups, t.yEdgeStyles, t.yNodeStyles, order)
    ensures var t := Run(minted, s, steps);
            && Materialize(t.yOverrides, t.yGroups, t.yEdgeStyles, t.yNodeStyles, order) ==
               Some(Overlay(t.cache.overrides, t.cache.groups.at, t.cache.edgeStyles, t.cache.nodeStyles, None))
            && minted(t.groupSeq) !in t.cache.groups.at
  {
    GoodRunKeeps(minted, s, steps);
    var t := Run(minted, s, steps);
    MaterializeIsSynced(t.yOverrides, t.yGroups, t.yEdgeStyles, t.yNodeStyles, order, t.cache.overrides, t.cache.groups,
                        t.cache.edgeStyles, t.cache.nodeStyles);
  }

  /** A document filled from a starting state in good order is good. */
  lemma SeededIsGood(minted: nat -> Id, initial: Snapshot)
    requires GoodGroups(minted, initial.groups, 0)
    requires EveryValue(initial.overrides, ValidOverride) && EveryValue(initial.edgeStyles, ValidEdgeStyle)
    ensures Good(minted, Seeded(initial, 0))
  {
    SeededSyncs(initial, 0);
  }

  // ---- Exactly when a run stays in agreement ----

  /** A local operation meets its condition, and a peer's change can be decoded. */
  ghost predicate StepFollows(s: Replica, step: Step)
    requires Synced(s)
  {
    match step case Local(op) => Follows(s, op) case FromPeer(m) => CanDecode(m)
  }

  lemma StepFollowsExactly(minted: nat -> Id, s: Replica, step: Step)
    requires Synced(s) && ValidStep(step)
    ensures IsMap(s.cache.groups) && (Synced(After(minted, s, step)) <==> StepFollows(s, step))
  {
    match step
    case Local(op) =>
      hide Edited, Follows;
      FollowsExactly(minted, s, op);
    case FromPeer(m) => ChangeSyncsExactly(s, m);
  }

  ghost predicate SyncedThroughout(minted: nat -> Id, s: Replica, steps: seq<Step>)
    requires IsMap(s.cache.groups) && forall x :: x in steps ==> ValidStep(x)
    decreases |steps|
  {
    Synced(s) &&
    (steps != [] ==> assert steps[0] in steps; SyncedThroughout(minted, After(minted, s, steps[0]), steps[1..]))
  }

  ghost predicate FollowedThroughout(minted: nat -> Id, s: Replica, steps: seq<Step>)
    requires Synced(s) && forall x :: x in steps ==> ValidStep(x)
    decreases |steps|
  {
    steps != [] ==>
      assert steps[0] in steps;
      && StepFollows(s, steps[0])
      && (StepFollowsExactly(minted, s, steps[0]); FollowedThroughout(minted, After(minted, s, steps[0]), steps[1..]))
  }

  /** Any run, good or not, stays in agreement all along exactly when each of its steps meets its condition. */
  lemma {:induction false} SyncedExactly(minted: nat -> Id, s: Replica, steps: seq<Step>)
    requires Synced(s) && forall x :: x in steps ==> ValidStep(x)
    ensures SyncedThroughout(minted, s, steps) <==> FollowedThroughout(minted, s, steps)
    decreases |steps|
  {
    if steps != [] {
      hide After, StepFollows, ValidStep;
      assert steps[0] in steps;
      StepFollowsExactly(minted, s, steps[0]);
      if StepFollows(s, steps[0]) { SyncedExactly(minted, After(minted, s, steps[0]), steps[1..]); }
    }
  }

  lemma {:induction false} RunSnoc(minted: nat -> Id, s: Replica, steps: seq<Step>, last: Step)
    requires IsMap(s.cache.groups) && (forall x :: x in steps ==> ValidStep(x)) && ValidStep(last)
    ensures IsMap(Run(minted, s, steps).cache.groups)
    ensures Run(minted, s, steps + [last]) == After(minted, Run(minted, s, steps), last)
    decreases |steps|
  {
    if steps == [] {
      assert steps + [last] == [last] && [last][1..] == [];
    } else {
      assert steps[0] in steps && (steps + [last])[0] == steps[0] && (steps + [last])[1..] == steps[1..] + [last];
      RunSnoc(minted, After(minted, s, steps[0]), steps[1..], last);
    }
  }

  /** However far cache and containers have parted, the next change that can be decoded brings them together. */
  lemma DecodableChangeHeals(minted: nat -> Id, s: Replica, steps: seq<Step>, m: Change)
    requires IsMap(s.cache.groups) && (forall x :: x in steps ==> ValidStep(x)) && ValidChange(m) && CanDecode(m)
    ensures Synced(Run(minted, s, steps + [FromPeer(m)]))
  {
    RunSnoc(minted, s, steps, FromPeer(m));
    ChangeSyncsExactly(Run(minted, s, steps), m);
  }

  // ---- Inputs on which they part ----

  /** The session takes any number as a label position, but no peer can decode one past the end of the connector. */
  lemma LabelPastTheEnd(minted: nat -> Id, s: Replica, style: EdgeStyle)
    requires Synced(s) && style == EdgeStyle(Straight, None, Some(1.5), None, None)
    ensures !Synced(Edited(minted, s, SetEdgeStyle("e", Some(style))))
    ensures IsMap(s.cache.groups)
    ensures !Synced(Edited(minted, s, Replace(Snapshot(map[], s.cache.groups, map["e" := style], map[]))))
  {
    FollowsExactly(minted, s, SetEdgeStyle("e", Some(style)));
    FollowsExactly(minted, s, Replace(Snapshot(map[], s.cache.groups, map["e" := style], map[])));
    assert "e" in map["e" := style];
  }

  function Alone(gs: GroupMap, y: map<Id, SharedGroup>): Replica {
    Replica(Snapshot(map[], gs, map[], map[]), map[], y, map[], map[], 0)
  }

  lemma AloneSynced(gs: GroupMap, y: map<Id, SharedGroup>)
    requires IsMap(gs) && GroupsAgree(y, gs.at)
    ensures Synced(Alone(gs, y))
  {
  }

  lemma AloneParts(minted: nat -> Id, s: Replica, op: Op)
    requires IsMap(s.cache.groups) && GroupsAgree(s.yGroups, s.cache.groups.at) && s == Alone(s.cache.groups, s.yGroups)
    requires match op
             case UngroupAt(d) => d in s.cache.groups.at && !SpliceSuffices(s.cache.groups, s.yGroups, d)
             case PruneTo(live) => !PruneFollows(s.cache.groups, s.yGroups, live)
             case _ => false
    ensures Synced(s) && !Synced(Edited(minted, s, op))
  {
    AloneSynced(s.cache.groups, s.yGroups);
    hide SpliceSuffices, PruneFollows, Edited, OverridesSynced, EdgeStylesSynced, NodeStylesSynced;
    FollowsExactly(minted, s, op);
  }

  /** A group as a peer may store it: its member list a plain value. */
  function Plain(g: Group): SharedGroup { BuildGroup(g).(members := Flat(Arr(EncodeAll(g.members, EncodeMember)))) }

  lemma PlainDecodes(g: Group)
    ensures Decoded(Plain(g)) == Some(g)
  {
    BuiltDecodes(g);
    assert ToJson(Plain(g)) == ToJson(BuildGroup(g));
  }

  const PAIR := Group("p", "", [Node("a"), Node("b")], false)

  /** A peer has stored a member list as a plain value: pruning leaves the dead node in it, and the cache drops it. */
  lemma PlainListKeepsDead(minted: nat -> Id, s: Replica)
    requires s == Alone(GroupMap(["p"], map["p" := PAIR]), map["p" := Plain(PAIR)])
    ensures Synced(s) && !Synced(Edited(minted, s, PruneTo({"a"})))
  {
    PlainDecodes(PAIR);
    PairUnfollowed(s.cache.groups, s.yGroups);
    AloneParts(minted, s, PruneTo({"a"}));
  }

  lemma PairUnfollowed(gs: GroupMap, y: map<Id, SharedGroup>)
    requires gs == GroupMap(["p"], map["p" := PAIR]) && y.Keys == {"p"}
    requires Decoded(y["p"]) == Some(PAIR) && y["p"].members.Flat?
    ensures IsMap(gs) && GroupsAgree(y, gs.at) && !PruneFollows(gs, y, {"a"})
  {
    hide Decoded, Pruned;
    PairPruned(gs);
    assert "p" in gs.keys && Node("b") in PAIR.members;
  }

  lemma PairPruned(gs: GroupMap)
    requires gs == GroupMap(["p"], map["p" := PAIR]) && IsMap(gs)
    ensures "p" in Pruned(gs, {"a"}).at && Pruned(gs, {"a"}).at["p"].members != PAIR.members
  {
    var once := Sweep(gs, {"a"});
    assert Kept(PAIR.members, gs.at, {"a"}) == [Node("a")] by { assert PAIR.members[1..] == [Node("b")]; }
    assert once == GroupMap(["p"], map["p" := PAIR.(members := [Node("a")])]);
    assert Kept([Node("a")], once.at, {"a"}) == [Node("a")];
    assert Sweep(once, {"a"}) == once;
  }

  const INNER := Group("d", "", [Node("a"), Node("b")], false)

  function Around(ms: seq<Member>): GroupMap {
    GroupMap(["p", "d"], map["p" := Group("p", "", ms, false), "d" := INNER])
  }

  lemma AroundParts(minted: nat -> Id, s: Replica, ms: seq<Member>, outer: SharedGroup)
    requires Decoded(outer) == Some(Around(ms).at["p"])
    requires s == Alone(Around(ms), map["p" := outer, "d" := BuildGroup(INNER)])
    requires Sub("d") in ms && (outer.members.Flat? || References(ms, "d") > 1)
    ensures Synced(s) && !Synced(Edited(minted, s, UngroupAt("d")))
  {
    var gs := s.cache.groups;
    BuiltDecodes(INNER);
    FlattenedLength(ms, "d", []);
    hide Synced, Edited, Decoded, Flattened, BuildGroup;
    assert gs.keys[0] == "p" && ParentOf(gs, Sub("d")) == Some("p");
    assert INNER.members[0] == Node("a");
    assert s.yGroups["p"] == outer && !SpliceSuffices(gs, s.yGroups, "d");
    AloneParts(minted, s, UngroupAt("d"));
  }

  /** A plain member list does not follow a dissolve either, and neither does one that names the group twice. */
  lemma DissolveParts(minted: nat -> Id, s: Replica, twice: bool)
    requires var ms := if twice then [Sub("d"), Sub("d")] else [Sub("d")];
             var outer := Group("p", "", ms, false);
             s == Alone(Around(ms), map["p" := if twice then BuildGroup(outer) else Plain(outer),
                                        "d" := BuildGroup(INNER)])
    ensures Synced(s) && !Synced(Edited(minted, s, UngroupAt("d")))
  {
    var ms := if twice then [Sub("d"), Sub("d")] else [Sub("d")];
    PlainDecodes(Around(ms).at["p"]);
    BuiltDecodes(Around(ms).at["p"]);
    assert twice ==> ms[1..] == [Sub("d")];
    assert References([Sub("d")], "d") == 1;
    AroundParts(minted, s, ms, s.yGroups["p"]);
  }
}
