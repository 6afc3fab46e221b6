/** One replica of a collaborative document: a cached overlay, and the shared containers every local operation edits. */
module Session {
  import opened Wrappers
  import opened Groups
  import opened GroupEdits
  import opened GroupPrune
  import opened OverlayCodec
  import opened SharedOverlay
  import opened SharedEdits

  // ---- Decoding the shared containers ----

  /** The raw payload: what the shared containers flatten to, entry by entry. */
  function RawPayload(yOverrides: map<Id, Json>, yGroups: map<Id, SharedGroup>, yEdgeStyles: map<Id, Json>,
                      yNodeStyles: map<Id, Json>, order: Order): Json
    requires forall k :: k in order.overrides <==> k in yOverrides
    requires forall k :: k in order.groups <==> k in yGroups
    requires forall k :: k in order.edgeStyles <==> k in yEdgeStyles
    requires forall k :: k in order.nodeStyles <==> k in yNodeStyles
  {
    Obj(map["overrides" := Payload(order.overrides, yOverrides), "groups" := Payload(order.groups, Flatten(yGroups)),
            "edgeStyles" := Payload(order.edgeStyles, yEdgeStyles),
            "nodeStyles" := Payload(order.nodeStyles, yNodeStyles)])
  }

  function Flatten(y: map<Id, SharedGroup>): map<Id, Json> { map k | k in y :: ToJson(y[k]) }

  lemma FlattenAgrees(y: map<Id, SharedGroup>, at: map<Id, Group>)
    ensures GroupsAgree(y, at) <==> Agree(Flatten(y), at, DecodeGroup)
  {
    assert Flatten(y).Keys == y.Keys;
    if Agree(Flatten(y), at, DecodeGroup) {
      forall k | k in y ensures Decoded(y[k]) == Some(at[k]) { assert k in Flatten(y); }
    }
  }

  lemma RawFields(yOverrides: map<Id, Json>, yGroups: map<Id, SharedGroup>, yEdgeStyles: map<Id, Json>,
                  yNodeStyles: map<Id, Json>, order: Order, j: Json)
    requires forall k :: k in order.overrides <==> k in yOverrides
    requires forall k :: k in order.groups <==> k in yGroups
    requires forall k :: k in order.edgeStyles <==> k in yEdgeStyles
    requires forall k :: k in order.nodeStyles <==> k in yNodeStyles
    requires j == RawPayload(yOverrides, yGroups, yEdgeStyles, yNodeStyles, order)
    ensures Field(j, "overrides") == Some(Payload(order.overrides, yOverrides))
    ensures Field(j, "groups") == Some(Payload(order.groups, Flatten(yGroups)))
    ensures Field(j, "edgeStyles") == Some(Payload(order.edgeStyles, yEdgeStyles))
    ensures Field(j, "nodeStyles") == Some(Payload(order.nodeStyles, yNodeStyles))
    ensures Field(j, "identity") == None
  {
  }

  /** The containers agree with a cache entry by entry exactly when decoding their payload gives that cache. */
  lemma AgreeIsDecoded(yOverrides: map<Id, Json>, yGroups: map<Id, SharedGroup>, yEdgeStyles: map<Id, Json>,
                       yNodeStyles: map<Id, Json>, order: Order, o: Overlay)
    requires forall k :: k in order.overrides <==> k in yOverrides
    requires forall k :: k in order.groups <==> k in yGroups
    requires forall k :: k in order.edgeStyles <==> k in yEdgeStyles
    requires forall k :: k in order.nodeStyles <==> k in yNodeStyles
    ensures DecodeOverlay(RawPayload(yOverrides, yGroups, yEdgeStyles, yNodeStyles, order)) == Some(o) <==>
            && o.identity == None
            && Agree(yOverrides, o.overrides, DecodeOverride) && GroupsAgree(yGroups, o.groups)
            && Agree(yEdgeStyles, o.edgeStyles, DecodeEdgeStyle) && Agree(yNodeStyles, o.nodeStyles, DecodeNodeStyle)
  {
    RawFields(yOverrides, yGroups, yEdgeStyles, yNodeStyles, order,
              RawPayload(yOverrides, yGroups, yEdgeStyles, yNodeStyles, order));
    FlattenAgrees(yGroups, o.groups);
    PayloadDecodes(order.overrides, yOverrides, o.overrides, DecodeOverride);
    PayloadDecodes(order.groups, Flatten(yGroups), o.groups, DecodeGroup);
    PayloadDecodes(order.edgeStyles, yEdgeStyles, o.edgeStyles, DecodeEdgeStyle);
    PayloadDecodes(order.nodeStyles, yNodeStyles, o.nodeStyles, DecodeNodeStyle);
  }

  // Each shared container against its part of the cache.

  ghost predicate OverridesSynced(y: map<Id, Json>, c: map<Id, NodeOverride>) {
    var synced := Agree(y, c, DecodeOverride);
    synced
  }

  ghost predicate EdgeStylesSynced(y: map<Id, Json>, c: map<Id, EdgeStyle>) {
    var synced := Agree(y, c, DecodeEdgeStyle);
    synced
  }

  ghost predicate NodeStylesSynced(y: map<Id, Json>, c: map<Id, NodeStyle>) {
    var synced := Agree(y, c, DecodeNodeStyle);
    synced
  }

  ghost predicate GroupsSynced(y: map<Id, SharedGroup>, gs: GroupMap) {
    var synced := IsMap(gs) && GroupsAgree(y, gs.at);
    synced
  }

  ghost predicate IsKeyOrder(keys: seq<Id>, all: set<Id>) {
    (forall k :: k in keys <==> k in all) && forall i, j :: 0 <= i < j < |keys| ==> keys[i] != keys[j]
  }

  /** The keys each shared container hands out, in order. */
  ghost predicate Listed(yOverrides: map<Id, Json>, yGroups: map<Id, SharedGroup>, yEdgeStyles: map<Id, Json>,
                         yNodeStyles: map<Id, Json>, order: Order)
  {
    && IsKeyOrder(order.overrides, yOverrides.Keys) && IsKeyOrder(order.groups, yGroups.Keys)
    && IsKeyOrder(order.edgeStyles, yEdgeStyles.Keys) && IsKeyOrder(order.nodeStyles, yNodeStyles.Keys)
  }

  function Materialize(yOverrides: map<Id, Json>, yGroups: map<Id, SharedGroup>, yEdgeStyles: map<Id, Json>,
                       yNodeStyles: map<Id, Json>, order: Order): Option<Overlay>
    requires Listed(yOverrides, yGroups, yEdgeStyles, yNodeStyles, order)
  {
    DecodeOverlay(RawPayload(yOverrides, yGroups, yEdgeStyles, yNodeStyles, order))
  }

  /** Decoding the shared containers gives the cache exactly when every container agrees with it. */
  lemma MaterializeIsSynced(yOverrides: map<Id, Json>, yGroups: map<Id, SharedGroup>, yEdgeStyles: map<Id, Json>,
                            yNodeStyles: map<Id, Json>, order: Order, o: map<Id, NodeOverride>, gs: GroupMap,
                            e: map<Id, EdgeStyle>, n: map<Id, NodeStyle>)
    requires Listed(yOverrides, yGroups, yEdgeStyles, yNodeStyles, order) && IsMap(gs)
    ensures Materialize(yOverrides, yGroups, yEdgeStyles, yNodeStyles, order) ==
            Some(Overlay(o, gs.at, e, n, None)) <==>
            && OverridesSynced(yOverrides, o) && GroupsSynced(yGroups, gs)
            && EdgeStylesSynced(yEdgeStyles, e) && NodeStylesSynced(yNodeStyles, n)
  {
    AgreeIsDecoded(yOverrides, yGroups, yEdgeStyles, yNodeStyles, order, Overlay(o, gs.at, e, n, None));
  }

  /** Some overlay agrees with the shared containers. */
  ghost predicate Decodable(o: map<Id, Json>, g: map<Id, SharedGroup>, e: map<Id, Json>, n: map<Id, Json>) {
    exists c: Overlay :: AgreesWith(o, g, e, n, c)
  }

  ghost predicate AgreesWith(o: map<Id, Json>, g: map<Id, SharedGroup>, e: map<Id, Json>, n: map<Id, Json>,
                             c: Overlay)
  {
    && c.identity == None && Agree(o, c.overrides, DecodeOverride) && GroupsAgree(g, c.groups)
    && Agree(e, c.edgeStyles, DecodeEdgeStyle) && Agree(n, c.nodeStyles, DecodeNodeStyle)
  }

  lemma MaterializeNone(o: map<Id, Json>, g: map<Id, SharedGroup>, e: map<Id, Json>, n: map<Id, Json>, order: Order)
    requires Listed(o, g, e, n, order) && Materialize(o, g, e, n, order) == None
    ensures !Decodable(o, g, e, n)
  {
    if Decodable(o, g, e, n) {
      var c :| AgreesWith(o, g, e, n, c);
      AgreeIsDecoded(o, g, e, n, order, c);
    }
  }

  lemma MaterializeSome(o: map<Id, Json>, g: map<Id, SharedGroup>, e: map<Id, Json>, n: map<Id, Json>, order: Order,
                        c: Overlay)
    requires Listed(o, g, e, n, order) && Materialize(o, g, e, n, order) == Some(c)
    ensures AgreesWith(o, g, e, n, c)
  {
    AgreeIsDecoded(o, g, e, n, order, c);
  }

  method MaterializeNow(o: map<Id, Json>, g: map<Id, SharedGroup>, e: map<Id, Json>, n: map<Id, Json>, order: Order)
    returns (decoded: Option<Overlay>)
    requires Listed(o, g, e, n, order)
    ensures decoded == Materialize(o, g, e, n, order)
    ensures decoded.None? ==> !Decodable(o, g, e, n)
    ensures decoded.Some? ==> AgreesWith(o, g, e, n, decoded.value)
  {
    decoded := Materialize(o, g, e, n, order);
    if decoded.Some? { MaterializeSome(o, g, e, n, order, decoded.value); } else { MaterializeNone(o, g, e, n, order); }
  }

  lemma AgreeingSyncs(o: map<Id, Json>, g: map<Id, SharedGroup>, e: map<Id, Json>, n: map<Id, Json>, order: Order,
                      c: Overlay)
    requires Listed(o, g, e, n, order) && AgreesWith(o, g, e, n, c)
    ensures OverridesSynced(o, c.overrides) && GroupsSynced(g, GroupMap(order.groups, c.groups))
    ensures EdgeStylesSynced(e, c.edgeStyles) && NodeStylesSynced(n, c.nodeStyles) && Decodable(o, g, e, n)
  {
    assert c.groups.Keys == g.Keys;
    assert forall k :: k in order.groups <==> k in c.groups;
  }

  // ---- The replica as a value ----

  datatype Replica = Replica(cache: Snapshot, yOverrides: map<Id, Json>, yGroups: map<Id, SharedGroup>,
                             yEdgeStyles: map<Id, Json>, yNodeStyles: map<Id, Json>, groupSeq: nat)

  /** A document whose shared containers were filled from the cache. */
  function Seeded(all: Snapshot, groupSeq: nat): Replica {
    Replica(all, Encoded(all.overrides, EncodeOverride), Built(all.groups.at), Encoded(all.edgeStyles, EncodeEdgeStyle),
            Encoded(all.nodeStyles, EncodeNodeStyle), groupSeq)
  }

  /** The local operations. */
  datatype Op =
    | SetEdgeStyle(edge: Id, edgeStyle: Option<EdgeStyle>)
    | SetNodeStyle(node: Id, nodeStyle: Option<NodeStyle>)
    | MoveNode(moved: Id, to: Point)
    | ResizeNode(resized: Id, origin: Point, dim: Size)
    | ReplaceOverrides(overrides: map<Id, NodeOverride>)
    | GroupNodes(units: seq<Member>)
    | UngroupAt(top: Id)
    | SetLocked(id: Id, locked: bool)
    | SetLabel(labelled: Id, caption: string)
    | PruneTo(live: set<Id>)
    | Replace(all: Snapshot)

  ghost predicate ValidOp(op: Op) { op.Replace? ==> IsMap(op.all.groups) }

  function Moved(o: map<Id, NodeOverride>, id: Id, to: Point): map<Id, NodeOverride> {
    o[id := NodeOverride(to, if id in o then o[id].size else None, true)]
  }

  function Resized(o: map<Id, NodeOverride>, id: Id, origin: Point, dim: Size): map<Id, NodeOverride> {
    o[id := NodeOverride(origin, Some(dim), true)]
  }

  function WithOverrides(s: Replica, next: map<Id, NodeOverride>): Replica {
    s.(cache := s.cache.(overrides := next), yOverrides := Encoded(next, EncodeOverride))
  }

  function WithGroups(s: Replica, next: GroupMap, y: map<Id, SharedGroup>): Replica {
    s.(cache := s.cache.(groups := next), yGroups := y)
  }

  /** The groups after a local operation: the pure edit. `n` is the number of the next id to be minted. */
  function GroupsAfter(minted: nat -> Id, gs: GroupMap, op: Op, n: nat): (r: GroupMap)
    requires IsMap(gs) && ValidOp(op)
    ensures IsMap(r)
  {
    match op
    case GroupNodes(units) =>
      AddedIsMap(gs, Group(minted(n), "", units, false));
      WithGroup(gs, Group(minted(n), "", units, false))
    case UngroupAt(top) => UngroupIsMap(gs, top); Ungroup(gs, top)
    case SetLocked(id, locked) => WithLock(gs, id, locked)
    case SetLabel(id, caption) => WithCaption(gs, id, caption)
    case PruneTo(live) => PrunedIsMap(gs, live); PruneResult(gs, live)
    case Replace(all) => all.groups
    case _ => gs
  }

  /** The shared groups after it: the targeted edit. */
  function SharedAfter(minted: nat -> Id, gs: GroupMap, y: map<Id, SharedGroup>, op: Op, n: nat): map<Id, SharedGroup>
    requires IsMap(gs) && ValidOp(op)
  {
    match op
    case GroupNodes(units) => y[minted(n) := BuildGroup(Group(minted(n), "", units, false))]
    case UngroupAt(top) => Dissolved(gs, y, top)
    case SetLocked(id, locked) => Locked(gs, y, id, locked)
    case SetLabel(id, caption) => Labelled(gs, y, id, caption)
    case PruneTo(live) => if HasDead(gs, live) then PrunedShared(y, Pruned(gs, live).at) else y
    case Replace(all) => Built(all.groups.at)
    case _ => y
  }

  /** A local operation on the whole replica. */
  function Edited(minted: nat -> Id, s: Replica, op: Op): (r: Replica)
    requires IsMap(s.cache.groups) && ValidOp(op)
    ensures IsMap(r.cache.groups)
  {
    var c, next := s.cache, GroupsAfter(minted, s.cache.groups, op, s.groupSeq);
    match op
    case SetEdgeStyle(id, style) =>
      s.(cache := c.(edgeStyles := Put(c.edgeStyles, id, style)),
         yEdgeStyles := PutEncoded(s.yEdgeStyles, id, style, EncodeEdgeStyle))
    case SetNodeStyle(id, style) =>
      s.(cache := c.(nodeStyles := Put(c.nodeStyles, id, style)),
         yNodeStyles := PutEncoded(s.yNodeStyles, id, style, EncodeNodeStyle))
    case MoveNode(id, to) => WithOverrides(s, Moved(c.overrides, id, to))
    case ResizeNode(id, origin, dim) => WithOverrides(s, Resized(c.overrides, id, origin, dim))
    case ReplaceOverrides(o) => WithOverrides(s, o)
    case Replace(all) => Seeded(all, s.groupSeq)
    case GroupNodes(_) =>
      WithGroups(s, next, SharedAfter(minted, c.groups, s.yGroups, op, s.groupSeq)).(groupSeq := s.groupSeq + 1)
    case _ => WithGroups(s, next, SharedAfter(minted, c.groups, s.yGroups, op, s.groupSeq))
  }

  // ---- Changes from peers ----

  /** The shared containers as a peer's change leaves them, and the order they hand out their keys in. */
  datatype Change = Change(yOverrides: map<Id, Json>, yGroups: map<Id, SharedGroup>, yEdgeStyles: map<Id, Json>,
                           yNodeStyles: map<Id, Json>, order: Order)

  ghost predicate ValidChange(m: Change) { Listed(m.yOverrides, m.yGroups, m.yEdgeStyles, m.yNodeStyles, m.order) }

  ghost predicate CanDecode(m: Change) { Decodable(m.yOverrides, m.yGroups, m.yEdgeStyles, m.yNodeStyles) }

  /** A change that can be decoded is adopted; any other leaves the last good cache. */
  function Received(s: Replica, m: Change): Replica
    requires ValidChange(m)
  {
    var cache :=
      match Materialize(m.yOverrides, m.yGroups, m.yEdgeStyles, m.yNodeStyles, m.order)
      case None => s.cache
      case Some(c) => Snapshot(c.overrides, GroupMap(m.order.groups, c.groups), c.edgeStyles, c.nodeStyles);
    Replica(cache, m.yOverrides, m.yGroups, m.yEdgeStyles, m.yNodeStyles, s.groupSeq)
  }

  // ---- When the shared containers follow ----

  /** Every shared entry decodes to the cached one. */
  ghost predicate Synced(s: Replica) {
    && OverridesSynced(s.yOverrides, s.cache.overrides) && GroupsSynced(s.yGroups, s.cache.groups)
    && EdgeStylesSynced(s.yEdgeStyles, s.cache.edgeStyles) && NodeStylesSynced(s.yNodeStyles, s.cache.nodeStyles)
  }

  ghost predicate DissolveFollows(gs: GroupMap, y: map<Id, SharedGroup>, d: Id)
    requires GroupsSynced(y, gs)
  {
    d in gs.at ==> SpliceSuffices(gs, y, d)
  }

  /** What an operation needs so that every peer decodes what this replica caches. */
  ghost predicate Follows(s: Replica, op: Op)
    requires Synced(s)
  {
    match op
    case SetEdgeStyle(_, style) => style.Some? ==> ValidEdgeStyle(style.value)
    case ResizeNode(_, _, dim) => ValidSize(dim)
    case ReplaceOverrides(next) => EveryValue(next, ValidOverride)
    case UngroupAt(top) => DissolveFollows(s.cache.groups, s.yGroups, top)
    case PruneTo(live) => PruneFollows(s.cache.groups, s.yGroups, live)
    case Replace(all) => EveryValue(all.overrides, ValidOverride) && EveryValue(all.edgeStyles, ValidEdgeStyle)
    case _ => true
  }

  lemma EncodedOverrides(next: map<Id, NodeOverride>)
    ensures OverridesSynced(Encoded(next, EncodeOverride), next) <==> EveryValue(next, ValidOverride)
  {
    forall v ensures DecodeOverride(EncodeOverride(v)) == if ValidOverride(v) then Some(v) else None {
      OverrideRoundTrip(v);
    }
    EncodedAgrees(next, EncodeOverride, DecodeOverride, ValidOverride);
  }

  lemma EncodedEdgeStyles(next: map<Id, EdgeStyle>)
    ensures EdgeStylesSynced(Encoded(next, EncodeEdgeStyle), next) <==> EveryValue(next, ValidEdgeStyle)
  {
    forall v ensures DecodeEdgeStyle(EncodeEdgeStyle(v)) == if ValidEdgeStyle(v) then Some(v) else None {
      EdgeStyleRoundTrip(v);
    }
    EncodedAgrees(next, EncodeEdgeStyle, DecodeEdgeStyle, ValidEdgeStyle);
  }

  lemma EncodedNodeStyles(next: map<Id, NodeStyle>)
    ensures NodeStylesSynced(Encoded(next, EncodeNodeStyle), next)
  {
    forall v: NodeStyle ensures DecodeNodeStyle(EncodeNodeStyle(v)) == if Anything(v) then Some(v) else None {
      NodeStyleRoundTrip(v);
    }
    EncodedAgrees(next, EncodeNodeStyle, DecodeNodeStyle, Anything);
  }

  lemma AdoptedSyncs(s: Replica, m: Change)
    requires ValidChange(m) && CanDecode(m)
    ensures Synced(Received(s, m)) && Received(s, m).cache.groups.keys == m.order.groups
  {
    hide OverridesSynced, GroupsSynced, EdgeStylesSynced, NodeStylesSynced, AgreesWith, Decodable, Materialize, Listed;
    var (o, g, e, n, order) := (m.yOverrides, m.yGroups, m.yEdgeStyles, m.yNodeStyles, m.order);
    match Materialize(o, g, e, n, order)
    case None => MaterializeNone(o, g, e, n, order);
    case Some(c) =>
      MaterializeSome(o, g, e, n, order, c);
      AgreeingSyncs(o, g, e, n, order, c);
  }

  lemma SyncedDecodes(s: Replica)
    requires Synced(s)
    ensures Decodable(s.yOverrides, s.yGroups, s.yEdgeStyles, s.yNodeStyles)
  {
    var c := Overlay(s.cache.overrides, s.cache.groups.at, s.cache.edgeStyles, s.cache.nodeStyles, None);
    assert AgreesWith(s.yOverrides, s.yGroups, s.yEdgeStyles, s.yNodeStyles, c);
  }

  lemma RejectedKeepsCache(s: Replica, m: Change)
    requires ValidChange(m) && !CanDecode(m)
    ensures Received(s, m).cache == s.cache && !Synced(Received(s, m))
  {
    hide AgreesWith, Materialize, Listed;
    var (o, g, e, n, order) := (m.yOverrides, m.yGroups, m.yEdgeStyles, m.yNodeStyles, m.order);
    if Materialize(o, g, e, n, order).Some? {
      MaterializeSome(o, g, e, n, order, Materialize(o, g, e, n, order).value);
    }
    if Synced(Received(s, m)) { SyncedDecodes(Received(s, m)); }
  }

  /** Whatever the replica, after a peer's change the cache is what the shared containers decode to exactly when they
  can be decoded; otherwise the cache stays as it was. */
  lemma ChangeSyncsExactly(s: Replica, m: Change)
    requires ValidChange(m)
    ensures Synced(Received(s, m)) <==> CanDecode(m)
    ensures !CanDecode(m) ==> Received(s, m).cache == s.cache
  {
    if CanDecode(m) { AdoptedSyncs(s, m); } else { RejectedKeepsCache(s, m); }
  }

  /** A document filled from its cache is in agreement exactly when the cache can be decoded at all. */
  lemma SeededSyncs(all: Snapshot, groupSeq: nat)
    requires IsMap(all.groups)
    ensures Synced(Seeded(all, groupSeq)) <==>
            EveryValue(all.overrides, ValidOverride) && EveryValue(all.edgeStyles, ValidEdgeStyle)
    ensures AllContainers(Seeded(all, groupSeq).yGroups)
  {
    EncodedOverrides(all.overrides);
    EncodedEdgeStyles(all.edgeStyles);
    EncodedNodeStyles(all.nodeStyles);
    BuiltAgrees(all.groups.at);
  }

  lemma StyleFollows(minted: nat -> Id, s: Replica, op: Op)
    requires Synced(s) && (op.SetEdgeStyle? || op.SetNodeStyle?)
    ensures Synced(Edited(minted, s, op)) <==> Follows(s, op)
  {
    hide OverridesSynced, GroupsSynced, EncodeEdgeStyle, DecodeEdgeStyle, EncodeNodeStyle, DecodeNodeStyle,
        ValidEdgeStyle;
    match op
    case SetEdgeStyle(id, style) =>
      PutAgrees(s.yEdgeStyles, s.cache.edgeStyles, id, style, EncodeEdgeStyle, DecodeEdgeStyle);
      if style.Some? { EdgeStyleRoundTrip(style.value); }
    case SetNodeStyle(id, style) =>
      PutAgrees(s.yNodeStyles, s.cache.nodeStyles, id, style, EncodeNodeStyle, DecodeNodeStyle);
      if style.Some? { NodeStyleRoundTrip(style.value); }
  }

  lemma SyncedOverridesAreValid(y: map<Id, Json>, c: map<Id, NodeOverride>)
    requires OverridesSynced(y, c)
    ensures EveryValue(c, ValidOverride)
  {
    forall k | k in c ensures ValidOverride(c[k]) { assert DecodeOverride(y[k]) == Some(c[k]); }
  }

  lemma OverridesFollow(minted: nat -> Id, s: Replica, op: Op)
    requires Synced(s) && (op.MoveNode? || op.ResizeNode? || op.ReplaceOverrides?)
    ensures Synced(Edited(minted, s, op)) <==> Follows(s, op)
  {
    var next := Edited(minted, s, op).cache.overrides;
    EncodedOverrides(next);
    SyncedOverridesAreValid(s.yOverrides, s.cache.overrides);
    hide OverridesSynced, GroupsSynced, EdgeStylesSynced, NodeStylesSynced;
    assert op.ResizeNode? ==> op.resized in next && next[op.resized].size == Some(op.dim);
  }

  lemma FieldFollows(minted: nat -> Id, gs: GroupMap, y: map<Id, SharedGroup>, op: Op, n: nat)
    requires GroupsSynced(y, gs) && (op.GroupNodes? || op.SetLocked? || op.SetLabel?)
    ensures GroupsSynced(SharedAfter(minted, gs, y, op, n), GroupsAfter(minted, gs, op, n))
  {
    hide BuildGroup, Decoded, IsMap;
    match op
    case GroupNodes(units) =>
      var g := Group(minted(n), "", units, false);
      BuiltDecodes(g);
      PutGroupAgrees(y, gs.at, g.id, BuildGroup(g), g);
    case SetLocked(id, locked) => LockedAgrees(gs, y, id, locked);
    case SetLabel(id, caption) => LabelledAgrees(gs, y, id, caption);
  }

  lemma DissolveOrPruneFollows(minted: nat -> Id, gs: GroupMap, y: map<Id, SharedGroup>, op: Op, n: nat)
    requires GroupsSynced(y, gs) && (op.UngroupAt? || op.PruneTo?)
    ensures GroupsSynced(SharedAfter(minted, gs, y, op, n), GroupsAfter(minted, gs, op, n)) <==>
            match op case UngroupAt(top) => DissolveFollows(gs, y, top) case PruneTo(live) => PruneFollows(gs, y, live)
  {
    hide IsMap, Ungroup, Dissolved, SpliceSuffices, PrunedShared, Pruned, HasDead;
    match op
    case UngroupAt(top) => if top in gs.at { DissolvedAgrees(gs, y, top); } else { UngroupAbsent(gs, y, top); }
    case PruneTo(live) => if HasDead(gs, live) { PrunedAgrees(gs, y, live); }
  }

  lemma UngroupAbsent(gs: GroupMap, y: map<Id, SharedGroup>, top: Id)
    ensures top !in gs.at ==> Ungroup(gs, top) == gs && Dissolved(gs, y, top) == y
  {
  }

  lemma GroupEditFollows(minted: nat -> Id, s: Replica, op: Op)
    requires Synced(s) && (op.GroupNodes? || op.SetLocked? || op.SetLabel? || op.UngroupAt? || op.PruneTo?)
    ensures Synced(Edited(minted, s, op)) <==> Follows(s, op)
  {
    if op.UngroupAt? || op.PruneTo? {
      DissolveOrPruneFollows(minted, s.cache.groups, s.yGroups, op, s.groupSeq);
    } else {
      FieldFollows(minted, s.cache.groups, s.yGroups, op, s.groupSeq);
    }
    hide GroupsAfter, SharedAfter, OverridesSynced, EdgeStylesSynced, NodeStylesSynced, DissolveFollows, PruneFollows;
  }

  /** Every local operation keeps the shared containers decoding to the cache exactly under its condition. */
  lemma FollowsExactly(minted: nat -> Id, s: Replica, op: Op)
    requires Synced(s) && ValidOp(op)
    ensures Synced(Edited(minted, s, op)) <==> Follows(s, op)
  {
    hide Follows, Synced, Edited;
    match op
    case SetEdgeStyle(_, _) => StyleFollows(minted, s, op);
    case SetNodeStyle(_, _) => StyleFollows(minted, s, op);
    case MoveNode(_, _) => OverridesFollow(minted, s, op);
    case ResizeNode(_, _, _) => OverridesFollow(minted, s, op);
    case ReplaceOverrides(_) => OverridesFollow(minted, s, op);
    case Replace(all) => ReplaceFollows(minted, s, all);
    case _ => GroupEditFollows(minted, s, op);
  }

  lemma ReplaceFollows(minted: nat -> Id, s: Replica, all: Snapshot)
    requires Synced(s) && IsMap(all.groups)
    ensures Synced(Edited(minted, s, Replace(all))) <==> Follows(s, Replace(all))
  {
    hide Synced, Seeded, EveryValue, GroupsAfter, SharedAfter;
    SeededSyncs(all, s.groupSeq);
  }

  // ---- What an edit of one entry changes ----

  /** Every shared position but that of `id` decodes to what it did. */
  ghost predicate OnlyDecodedAt(before: map<Id, Json>, after: map<Id, Json>, id: Id) {
    forall k :: k != id ==>
      (k in after <==> k in before) && (k in before ==> DecodeOverride(after[k]) == DecodeOverride(before[k]))
  }

  /** A dragged node goes where it is dropped, is pinned there and keeps its size, if it has one. */
  ghost predicate IsDragged(before: map<Id, NodeOverride>, after: map<Id, NodeOverride>, id: Id, to: Point) {
    && OnlyAt(before, after, id) && id in after && after[id].position == to && after[id].pinned
    && after[id].size == if id in before then before[id].size else None
  }

  ghost predicate IsResized(before: map<Id, NodeOverride>, after: map<Id, NodeOverride>, id: Id, origin: Point,
                            dim: Size)
  {
    && OnlyAt(before, after, id) && id in after && after[id].position == origin && after[id].pinned
    && after[id].size == Some(dim)
  }

  lemma SyncedEntries(s: Replica, r: Replica, id: Id)
    requires Synced(s) && Synced(r) && OnlyAt(s.cache.overrides, r.cache.overrides, id)
    ensures OnlyDecodedAt(s.yOverrides, r.yOverrides, id)
    ensures id in r.cache.overrides ==>
              id in r.yOverrides && DecodeOverride(r.yOverrides[id]) == Some(r.cache.overrides[id])
  {
  }

  /** A drag changes the one entry, in the cache and in what peers decode. */
  lemma DragEffect(minted: nat -> Id, s: Replica, id: Id, to: Point)
    requires IsMap(s.cache.groups)
    ensures var r := Edited(minted, s, MoveNode(id, to));
            && IsDragged(s.cache.overrides, r.cache.overrides, id, to)
            && r.cache == s.cache.(overrides := r.cache.overrides) && r.yGroups == s.yGroups
            && (Synced(s) ==> OnlyDecodedAt(s.yOverrides, r.yOverrides, id) && id in r.yOverrides &&
                              DecodeOverride(r.yOverrides[id]) == Some(r.cache.overrides[id]))
  {
    hide Synced, OnlyDecodedAt, DecodeOverride, EncodeOverride, Encoded;
    if Synced(s) {
      FollowsExactly(minted, s, MoveNode(id, to));
      SyncedEntries(s, Edited(minted, s, MoveNode(id, to)), id);
    }
  }

  /** So does a resize, as far as the size can be decoded. */
  lemma ResizeEffect(minted: nat -> Id, s: Replica, id: Id, origin: Point, dim: Size)
    requires IsMap(s.cache.groups)
    ensures var r := Edited(minted, s, ResizeNode(id, origin, dim));
            && IsResized(s.cache.overrides, r.cache.overrides, id, origin, dim)
            && r.cache == s.cache.(overrides := r.cache.overrides) && r.yGroups == s.yGroups
            && (Synced(s) && dim.width >= 0.0 && dim.height >= 0.0 ==>
                  OnlyDecodedAt(s.yOverrides, r.yOverrides, id) && id in r.yOverrides &&
                  DecodeOverride(r.yOverrides[id]) == Some(r.cache.overrides[id]))
  {
    hide Synced, OnlyDecodedAt, DecodeOverride, EncodeOverride, Encoded;
    if Synced(s) && dim.width >= 0.0 && dim.height >= 0.0 {
      FollowsExactly(minted, s, ResizeNode(id, origin, dim));
      SyncedEntries(s, Edited(minted, s, ResizeNode(id, origin, dim)), id);
    }
  }

  // ---- The replica in place ----

  class Session {
    /** The text of the n-th id this client mints. */
    const minted: nat -> Id
    var cache: Snapshot
    // The shared containers.
    var yOverrides: map<Id, Json>
    var yGroups: map<Id, SharedGroup>
    var yEdgeStyles: map<Id, Json>
    var yNodeStyles: map<Id, Json>
    var groupSeq: nat
    var rejected: bool

    function Value(): Replica
      reads this
    {
      Replica(cache, yOverrides, yGroups, yEdgeStyles, yNodeStyles, groupSeq)
    }

    /** Fills the shared containers from the caller's starting state. */
    constructor (minted: nat -> Id, initial: Snapshot)
      requires IsMap(initial.groups)
      ensures this.minted == minted && Value() == Seeded(initial, 0) && !rejected
    {
      this.minted := minted;
      var o := DropThenWrite(map[], initial.overrides, EncodeOverride);
      var g := BuildGroups(initial.groups);
      var e := DropThenWrite(map[], initial.edgeStyles, EncodeEdgeStyle);
      var n := DropThenWrite(map[], initial.nodeStyles, EncodeNodeStyle);
      cache, yOverrides, yGroups, yEdgeStyles, yNodeStyles, groupSeq, rejected := initial, o, g, e, n, 0, false;
    }

    method SetEdgeStyle(id: Id, style: Option<EdgeStyle>)
      requires IsMap(cache.groups)
      modifies this
      ensures Value() == Edited(minted, old(Value()), Op.SetEdgeStyle(id, style)) && rejected == old(rejected)
      ensures OnlyAt(old(cache.edgeStyles), cache.edgeStyles, id)
      ensures if style.None? then id !in cache.edgeStyles
              else id in cache.edgeStyles && cache.edgeStyles[id] == style.value
    {
      var next := cache.edgeStyles;
      if style.None? { next := next - {id}; } else { next := next[id := style.value]; }
      yEdgeStyles := PutEntry(yEdgeStyles, id, style, EncodeEdgeStyle);
      cache := cache.(edgeStyles := next);
    }

    method SetNodeStyle(id: Id, style: Option<NodeStyle>)
      requires IsMap(cache.groups)
      modifies this
      ensures Value() == Edited(minted, old(Value()), Op.SetNodeStyle(id, style)) && rejected == old(rejected)
      ensures OnlyAt(old(cache.nodeStyles), cache.nodeStyles, id)
      ensures if style.None? then id !in cache.nodeStyles
              else id in cache.nodeStyles && cache.nodeStyles[id] == style.value
    {
      var next := cache.nodeStyles;
      if style.None? { next := next - {id}; } else { next := next[id := style.value]; }
      yNodeStyles := PutEntry(yNodeStyles, id, style, EncodeNodeStyle);
      cache := cache.(nodeStyles := next);
    }

    method ReplaceOverrides(next: map<Id, NodeOverride>)
      requires IsMap(cache.groups)
      modifies this
      ensures Value() == Edited(minted, old(Value()), Op.ReplaceOverrides(next)) && rejected == old(rejected)
      ensures cache == old(cache).(overrides := next)
    {
      yOverrides := WriteThenDrop(yOverrides, next, EncodeOverride);
      cache := cache.(overrides := next);
    }

    method MoveNode(id: Id, to: Point)
      requires IsMap(cache.groups)
      modifies this
      ensures Value() == Edited(minted, old(Value()), Op.MoveNode(id, to)) && rejected == old(rejected)
      ensures IsDragged(old(cache.overrides), cache.overrides, id, to)
      ensures old(Synced(Value())) ==> OnlyDecodedAt(old(yOverrides), yOverrides, id)
    {
      DragEffect(minted, Value(), id, to);
      ReplaceOverrides(Moved(cache.overrides, id, to));
    }

    method ResizeNode(id: Id, origin: Point, dim: Size)
      requires IsMap(cache.groups)
      modifies this
      ensures Value() == Edited(minted, old(Value()), Op.ResizeNode(id, origin, dim)) && rejected == old(rejected)
      ensures IsResized(old(cache.overrides), cache.overrides, id, origin, dim)
      ensures old(Synced(Value())) && dim.width >= 0.0 && dim.height >= 0.0 ==>
                OnlyDecodedAt(old(yOverrides), yOverrides, id)
    {
      ResizeEffect(minted, Value(), id, origin, dim);
      ReplaceOverrides(Resized(cache.overrides, id, origin, dim));
    }

    method ClearOverrides()
      requires IsMap(cache.groups)
      modifies this
      ensures Value() == Edited(minted, old(Value()), Op.ReplaceOverrides(map[])) && rejected == old(rejected)
      ensures cache == old(cache).(overrides := map[])
    {
      ReplaceOverrides(map[]);
    }

    method GroupNodes(units: seq<Member>)
      requires IsMap(cache.groups)
      modifies this
      ensures Value() == Edited(minted, old(Value()), Op.GroupNodes(units)) && rejected == old(rejected)
      ensures OthersKept(old(cache.groups), cache.groups, minted(old(groupSeq))) && groupSeq == old(groupSeq) + 1
      ensures var id := minted(old(groupSeq));
              id in cache.groups.at && cache.groups.at[id] == Group(id, "", units, false)
    {
      var id := minted(groupSeq);
      groupSeq := groupSeq + 1;
      var g := Group(id, "", units, false);
      yGroups := yGroups[id := BuildGroup(g)];
      cache := cache.(groups := WithGroup(cache.groups, g));
    }

    method UngroupAt(top: Id)
      requires IsMap(cache.groups)
      modifies this
      ensures Value() == Edited(minted, old(Value()), Op.UngroupAt(top)) && rejected == old(rejected)
    {
      hide IsMap, Ungroup, Dissolved;
      UngroupAbsent(cache.groups, yGroups, top);
      if top !in cache.groups.at { return; }
      yGroups := DissolveShared(cache.groups, yGroups, top);
      cache := cache.(groups := Ungroup(cache.groups, top));
    }

    method SetGroupLocked(id: Id, locked: bool)
      requires IsMap(cache.groups)
      modifies this
      ensures Value() == Edited(minted, old(Value()), SetLocked(id, locked)) && rejected == old(rejected)
      ensures OthersKept(old(cache.groups), cache.groups, id)
      ensures id in old(cache.groups.at) ==>
                id in cache.groups.at && cache.groups.at[id] == old(cache.groups.at)[id].(locked := locked)
    {
      var gs := cache.groups;
      if id !in gs.at || gs.at[id].locked == locked {
        assert WithLock(gs, id, locked).at == gs.at;
        return;
      }
      if id in yGroups { yGroups := yGroups[id := WithField(yGroups[id], "locked", Bool(locked))]; }
      cache := cache.(groups := WithLock(gs, id, locked));
    }

    method SetGroupLabel(id: Id, caption: string)
      requires IsMap(cache.groups)
      modifies this
      ensures Value() == Edited(minted, old(Value()), SetLabel(id, caption)) && rejected == old(rejected)
      ensures OthersKept(old(cache.groups), cache.groups, id)
      ensures id in old(cache.groups.at) ==>
                id in cache.groups.at && cache.groups.at[id] == old(cache.groups.at)[id].(caption := caption)
    {
      var gs := cache.groups;
      if id !in gs.at || gs.at[id].caption == caption {
        assert WithCaption(gs, id, caption).at == gs.at;
        return;
      }
      if id in yGroups { yGroups := yGroups[id := WithField(yGroups[id], "label", Str(caption))]; }
      cache := cache.(groups := WithCaption(gs, id, caption));
    }

    method PruneGroupsTo(live: set<Id>) returns (changed: bool)
      requires IsMap(cache.groups)
      modifies this
      ensures changed == HasDead(old(cache.groups), live)
      ensures Value() == Edited(minted, old(Value()), PruneTo(live)) && rejected == old(rejected)
    {
      hide HasDead, Pruned, IsMap, PrunedShared;
      var next;
      next, changed := PruneGroups(cache.groups, live);
      if !changed { return; }
      yGroups := PruneShared(yGroups, next.at);
      cache := cache.(groups := next);
    }

    method Replace(all: Snapshot)
      requires IsMap(cache.groups) && IsMap(all.groups)
      modifies this
      ensures Value() == Edited(minted, old(Value()), Op.Replace(all)) && rejected == old(rejected)
      ensures cache == all
    {
      yOverrides := WriteThenDrop(yOverrides, all.overrides, EncodeOverride);
      yGroups := BuildGroups(all.groups);
      yEdgeStyles := DropThenWrite(yEdgeStyles, all.edgeStyles, EncodeEdgeStyle);
      yNodeStyles := DropThenWrite(yNodeStyles, all.nodeStyles, EncodeNodeStyle);
      cache := all;
    }

    /** Decodes a peer's change; what cannot be decoded is reported and the last good cache stays. */
    method ApplyRemote(m: Change)
      requires ValidChange(m)
      modifies this
      ensures Value() == Received(old(Value()), m)
      ensures rejected <==> !CanDecode(m)
    {
      hide AgreesWith, Decodable, Listed;
      var decoded := MaterializeNow(m.yOverrides, m.yGroups, m.yEdgeStyles, m.yNodeStyles, m.order);
      yOverrides, yGroups, yEdgeStyles, yNodeStyles := m.yOverrides, m.yGroups, m.yEdgeStyles, m.yNodeStyles;
      rejected := decoded.None?;
      if decoded.Some? {
        var c := decoded.value;
        AgreeingSyncs(m.yOverrides, m.yGroups, m.yEdgeStyles, m.yNodeStyles, m.order, c);
        cache := Snapshot(c.overrides, GroupMap(m.order.groups, c.groups), c.edgeStyles, c.nodeStyles);
      }
    }
  }
}
