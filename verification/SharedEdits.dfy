/** The targeted edits of the shared containers, as functions of what is stored, and when they follow the cache's
edits. */
module SharedEdits {
  import opened Wrappers
  import opened Groups
  import opened GroupEdits
  import opened GroupPrune
  import opened OverlayCodec
  import opened SharedOverlay

  ghost predicate GroupsAgree(y: map<Id, SharedGroup>, at: map<Id, Group>) {
    y.Keys == at.Keys && forall k :: k in y ==> Decoded(y[k]) == Some(at[k])
  }

  ghost predicate AllContainers(y: map<Id, SharedGroup>) {
    var all := forall k :: k in y ==> y[k].members.Container?;
    all
  }

  // ---- Plain entries ----

  function Encoded<V>(next: map<Id, V>, enc: V -> Json): map<Id, Json> { map k | k in next :: enc(next[k]) }

  ghost predicate Written<V>(y: map<Id, Json>, next: map<Id, V>, enc: V -> Json, r: map<Id, Json>) {
    && r.Keys == y.Keys + next.Keys
    && forall k :: k in r ==> r[k] == if k in next then enc(next[k]) else y[k]
  }

  /** Sets every entry of `next` whose stored value differs. */
  method WriteEntries<V>(y: map<Id, Json>, next: map<Id, V>, enc: V -> Json) returns (r: map<Id, Json>)
    ensures Written(y, next, enc, r)
  {
    r := y;
    var todo := next.Keys;
    while todo != {}
      invariant todo <= next.Keys && r.Keys == y.Keys + (next.Keys - todo)
      invariant forall k :: k in r ==> r[k] == if k in next && k !in todo then enc(next[k]) else y[k]
    {
      var k :| k in todo;
      if k !in r || r[k] != enc(next[k]) {
        r := r[k := enc(next[k])];
      }
      todo := todo - {k};
    }
  }

  /** Deletes every entry whose key is not in `next`. */
  method DropEntries<V>(y: map<Id, Json>, next: map<Id, V>) returns (r: map<Id, Json>)
    ensures r == map k | k in y && k in next :: y[k]
  {
    r := y;
    var todo := y.Keys;
    while todo != {}
      invariant todo <= y.Keys
      invariant r == map k | k in y && (k in todo || k in next) :: y[k]
    {
      var k :| k in todo;
      if k !in next { r := r - {k}; }
      todo := todo - {k};
    }
  }

  /** Makes the stored entries those of `next`, writing only what differs. */
  method WriteThenDrop<V>(y: map<Id, Json>, next: map<Id, V>, enc: V -> Json) returns (r: map<Id, Json>)
    ensures r == Encoded(next, enc)
  {
    var written := WriteEntries(y, next, enc);
    r := DropEntries(written, next);
  }

  /** The same, in the other order. */
  method DropThenWrite<V>(y: map<Id, Json>, next: map<Id, V>, enc: V -> Json) returns (r: map<Id, Json>)
    ensures r == Encoded(next, enc)
  {
    var dropped := DropEntries(y, next);
    r := WriteEntries(dropped, next, enc);
    assert r.Keys == next.Keys;
  }

  lemma EncodedAgrees<V(!new)>(next: map<Id, V>, enc: V -> Json, dec: Json -> Option<V>, ok: V -> bool)
    requires forall v :: dec(enc(v)) == if ok(v) then Some(v) else None
    ensures Agree(Encoded(next, enc), next, dec) <==> EveryValue(next, ok)
  {
    var y := Encoded(next, enc);
    assert y.Keys == next.Keys;
    forall k | k in next ensures dec(y[k]) == Some(next[k]) <==> ok(next[k]) {}
    if Agree(y, next, dec) {
      forall k | k in next ensures ok(next[k]) { assert k in y; }
    }
  }

  function PutEncoded<V>(y: map<Id, Json>, id: Id, v: Option<V>, enc: V -> Json): map<Id, Json> {
    if v.None? then y - {id} else y[id := enc(v.value)]
  }

  method PutEntry<V>(y: map<Id, Json>, id: Id, v: Option<V>, enc: V -> Json) returns (r: map<Id, Json>)
    ensures r == PutEncoded(y, id, v, enc)
  {
    if v.None? { return y - {id}; }
    r := if id in y && y[id] == enc(v.value) then y else y[id := enc(v.value)];
  }

  lemma PutAgrees<V>(y: map<Id, Json>, c: map<Id, V>, id: Id, v: Option<V>, enc: V -> Json, dec: Json -> Option<V>)
    requires Agree(y, c, dec)
    ensures Agree(PutEncoded(y, id, v, enc), Put(c, id, v), dec) <==> (v.Some? ==> dec(enc(v.value)) == v)
  {
    var y', c' := PutEncoded(y, id, v, enc), Put(c, id, v);
    assert y'.Keys == c'.Keys;
    if v.Some? { assert id in y' && y'[id] == enc(v.value) && c'[id] == v.value; }
  }

  // ---- Fields of a group ----

  function Locked(gs: GroupMap, y: map<Id, SharedGroup>, id: Id, locked: bool): map<Id, SharedGroup> {
    if id in gs.at && gs.at[id].locked != locked && id in y then y[id := WithField(y[id], "locked", Bool(locked))]
    else y
  }

  function Labelled(gs: GroupMap, y: map<Id, SharedGroup>, id: Id, caption: string): map<Id, SharedGroup> {
    if id in gs.at && gs.at[id].caption != caption && id in y then y[id := WithField(y[id], "label", Str(caption))]
    else y
  }

  lemma PutGroupAgrees(y: map<Id, SharedGroup>, at: map<Id, Group>, id: Id, yg: SharedGroup, g: Group)
    requires GroupsAgree(y, at)
    ensures GroupsAgree(y[id := yg], at[id := g]) <==> Decoded(yg) == Some(g)
  {
    assert id in y[id := yg] && y[id := yg][id] == yg && at[id := g][id] == g;
  }

  lemma LockedAgrees(gs: GroupMap, y: map<Id, SharedGroup>, id: Id, locked: bool)
    requires GroupsAgree(y, gs.at)
    ensures GroupsAgree(Locked(gs, y, id, locked), WithLock(gs, id, locked).at)
  {
    if id in gs.at {
      if gs.at[id].locked == locked {
        assert WithLock(gs, id, locked).at == gs.at;
      } else {
        LockDecodes(y[id], gs.at[id], locked);
        PutGroupAgrees(y, gs.at, id, WithField(y[id], "locked", Bool(locked)), gs.at[id].(locked := locked));
      }
    }
  }

  lemma LabelledAgrees(gs: GroupMap, y: map<Id, SharedGroup>, id: Id, caption: string)
    requires GroupsAgree(y, gs.at)
    ensures GroupsAgree(Labelled(gs, y, id, caption), WithCaption(gs, id, caption).at)
  {
    if id in gs.at {
      if gs.at[id].caption == caption {
        assert WithCaption(gs, id, caption).at == gs.at;
      } else {
        CaptionDecodes(y[id], gs.at[id], caption);
        PutGroupAgrees(y, gs.at, id, WithField(y[id], "label", Str(caption)), gs.at[id].(caption := caption));
      }
    }
  }

  // ---- Whole groups ----

  function Built(at: map<Id, Group>): map<Id, SharedGroup> { map k | k in at :: BuildGroup(at[k]) }

  lemma BuiltAgrees(at: map<Id, Group>)
    ensures GroupsAgree(Built(at), at) && AllContainers(Built(at))
  {
    forall k | k in at ensures Decoded(Built(at)[k]) == Some(at[k]) { BuiltDecodes(at[k]); }
  }

  /** Clears the shared groups and builds each one afresh. */
  method BuildGroups(next: GroupMap) returns (r: map<Id, SharedGroup>)
    requires IsMap(next)
    ensures r == Built(next.at)
  {
    r := map[];
    for i := 0 to |next.keys|
      invariant forall k :: k in r <==> k in next.keys[..i]
      invariant forall k :: k in r ==> k in next.at && r[k] == BuildGroup(next.at[k])
    {
      var k := next.keys[i];
      r := r[k := BuildGroup(next.at[k])];
      assert next.keys[..i + 1] == next.keys[..i] + [k];
    }
    assert next.keys[..|next.keys|] == next.keys;
    assert r.Keys == next.at.Keys;
  }

  // ---- Dissolving ----

  /** The dissolved group is removed and its members are spliced into its parent's list, if that is a list. */
  function Dissolved(gs: GroupMap, y: map<Id, SharedGroup>, d: Id): map<Id, SharedGroup> {
    if d !in gs.at then y
    else
      var rest := y - {d};
      match ParentOf(gs, Sub(d))
      case None => rest
      case Some(p) =>
        if p !in rest || rest[p].members.Flat? then rest
        else
          rest[p := rest[p].(members := Container(SpliceItems(rest[p].members.items, d,
                                                              EncodeAll(gs.at[d].members, EncodeMember))))]
  }

  method DissolveShared(gs: GroupMap, y: map<Id, SharedGroup>, d: Id) returns (r: map<Id, SharedGroup>)
    ensures r == Dissolved(gs, y, d)
  {
    if d !in gs.at { return y; }
    r := y - {d};
    var parent := ParentOf(gs, Sub(d));
    if parent.None? || parent.value !in r || r[parent.value].members.Flat? { return; }
    var items := SpliceMembers(r[parent.value].members.items, d, gs.at[d].members);
    r := r[parent.value := r[parent.value].(members := Container(items))];
  }

  /** The parent's shared list is a list that can be spliced, and splicing it at one place does what dissolving asks. */
  ghost predicate SpliceSuffices(gs: GroupMap, y: map<Id, SharedGroup>, d: Id)
    requires d in gs.at && GroupsAgree(y, gs.at)
  {
    match ParentOf(gs, Sub(d))
    case None => true
    case Some(p) =>
      p !in gs.at || p == d || gs.at[d].members == [Sub(d)] ||
      References(gs.at[p].members, d) <= if y[p].members.Container? then 1 else 0
  }

  lemma NoParentAgrees(gs: GroupMap, y: map<Id, SharedGroup>, d: Id)
    requires d in gs.at && GroupsAgree(y, gs.at)
    requires ParentOf(gs, Sub(d)).Some? ==> ParentOf(gs, Sub(d)).value !in gs.at - {d}
    ensures GroupsAgree(y - {d}, Ungroup(gs, d).at)
  {
  }

  lemma FlatParentAgrees(gs: GroupMap, y: map<Id, SharedGroup>, d: Id, p: Id)
    requires d in gs.at && GroupsAgree(y, gs.at) && ParentOf(gs, Sub(d)) == Some(p) && p in gs.at && p != d
    ensures GroupsAgree(y - {d}, Ungroup(gs, d).at) <==>
            References(gs.at[p].members, d) == 0 || gs.at[d].members == [Sub(d)]
  {
    hide Flattened, References;
    FlattenedSame(gs.at[p].members, d, gs.at[d].members);
    var after := Ungroup(gs, d).at;
    assert after[p] == gs.at[p].(members := Flattened(gs.at[p].members, d, gs.at[d].members));
    assert p in y - {d} && (y - {d})[p] == y[p];
  }

  lemma SplicedParentAgrees(gs: GroupMap, y: map<Id, SharedGroup>, d: Id, p: Id, items: seq<Json>)
    requires d in gs.at && GroupsAgree(y, gs.at) && ParentOf(gs, Sub(d)) == Some(p) && p in gs.at && p != d
    requires DecodeAll(items, DecodeMember) == Some(SpliceFirst(gs.at[p].members, d, gs.at[d].members))
    ensures GroupsAgree((y - {d})[p := y[p].(members := Container(items))], Ungroup(gs, d).at) <==>
            References(gs.at[p].members, d) <= 1 || gs.at[d].members == [Sub(d)]
  {
    var freed := gs.at[d].members;
    var g := gs.at[p].(members := Flattened(gs.at[p].members, d, freed));
    assert Ungroup(gs, d).at == (gs.at - {d})[p := g];
    hide Flattened, SpliceFirst, References, Decoded, Ungroup;
    SpliceIsFlatten(gs.at[p].members, d, freed);
    MembersDecode(y[p], gs.at[p], items, SpliceFirst(gs.at[p].members, d, freed));
    PutGroupAgrees(y - {d}, gs.at - {d}, p, y[p].(members := Container(items)), g);
  }

  /** The shared groups follow exactly when splicing one place in the parent's list is enough. */
  lemma DissolvedAgrees(gs: GroupMap, y: map<Id, SharedGroup>, d: Id)
    requires d in gs.at && GroupsAgree(y, gs.at)
    ensures GroupsAgree(Dissolved(gs, y, d), Ungroup(gs, d).at) <==> SpliceSuffices(gs, y, d)
    ensures AllContainers(y) ==> AllContainers(Dissolved(gs, y, d))
  {
    hide Ungroup, Flattened, SpliceItems, Decoded;
    var parent := ParentOf(gs, Sub(d));
    if parent.None? || parent.value !in y - {d} {
      NoParentAgrees(gs, y, d);
    } else if y[parent.value].members.Flat? {
      FlatParentAgrees(gs, y, d, parent.value);
    } else {
      var p := parent.value;
      ItemsDecode(y[p], gs.at[p]);
      SplicedDecodes(y[p].members.items, gs.at[p].members, d, gs.at[d].members);
      SplicedParentAgrees(gs, y, d, p, SpliceItems(y[p].members.items, d, EncodeAll(gs.at[d].members, EncodeMember)));
    }
  }

  // ---- Pruning ----

  /** Deletes from a shared group the members that did not survive, if its members are a list. */
  function PrunedGroup(y: SharedGroup, survivor: Group): SharedGroup {
    match y.members
    case Flat(_) => y
    case Container(items) => y.(members := Container(KeptItems(items, KeySet(survivor.members))))
  }

  function PrunedShared(y: map<Id, SharedGroup>, next: map<Id, Group>): map<Id, SharedGroup> {
    map k | k in y && k in next :: PrunedGroup(y[k], next[k])
  }

  /** Visits every shared group: deletes it, or deletes from it the members that did not survive. */
  method PruneShared(y: map<Id, SharedGroup>, next: map<Id, Group>) returns (r: map<Id, SharedGroup>)
    ensures r == PrunedShared(y, next)
  {
    r := y;
    var todo := y.Keys;
    while todo != {}
      invariant todo <= y.Keys
      invariant r == map k | k in y && (k in todo || k in next) ::
                       if k in todo then y[k] else PrunedGroup(y[k], next[k])
    {
      var k :| k in todo;
      todo := todo - {k};
      if k !in next {
        r := r - {k};
      } else if r[k].members.Container? {
        var left := DropMembers(r[k].members.items, KeySet(next[k].members));
        r := r[k := r[k].(members := Container(left))];
      }
    }
  }

  /** A list that is a plain value loses no members, so every such group has to keep all of its own. */
  ghost predicate PruneFollows(gs: GroupMap, y: map<Id, SharedGroup>, live: set<Id>)
    requires IsMap(gs) && GroupsAgree(y, gs.at)
  {
    HasDead(gs, live) ==>
      forall k :: k in Pruned(gs, live).at && k in gs.at && y[k].members.Flat? ==>
          Pruned(gs, live).at[k].members == gs.at[k].members
  }

  lemma SurvivorDecodes(gs: GroupMap, y: map<Id, SharedGroup>, live: set<Id>, k: Id)
    requires IsMap(gs) && GroupsAgree(y, gs.at) && k in Pruned(gs, live).at
    ensures k in gs.at
    ensures var kept := Pruned(gs, live).at[k];
            Decoded(PrunedGroup(y[k], kept)) == Some(kept) <==>
                (y[k].members.Flat? ==> kept.members == gs.at[k].members)
  {
    PrunedIsOnly(gs, live, k);
    hide Decoded, Pruned, KeptItems, Only;
    var g, kept := gs.at[k], Pruned(gs, live).at[k];
    if y[k].members.Container? {
      ItemsDecode(y[k], g);
      KeptItemsDecode(y[k].members.items, g.members, kept.members);
      MembersDecode(y[k], g, KeptItems(y[k].members.items, KeySet(kept.members)), kept.members);
    }
  }

  lemma PrunedAgrees(gs: GroupMap, y: map<Id, SharedGroup>, live: set<Id>)
    requires IsMap(gs) && GroupsAgree(y, gs.at) && HasDead(gs, live)
    ensures GroupsAgree(PrunedShared(y, Pruned(gs, live).at), Pruned(gs, live).at) <==> PruneFollows(gs, y, live)
    ensures AllContainers(y) ==> AllContainers(PrunedShared(y, Pruned(gs, live).at))
  {
    hide Decoded, Pruned, PrunedGroup, HasDead;
    var next := Pruned(gs, live).at;
    var r := PrunedShared(y, next);
    forall k | k in next
      ensures k in gs.at && (Decoded(r[k]) == Some(next[k]) <==>
                             (y[k].members.Flat? ==> next[k].members == gs.at[k].members))
    {
      SurvivorDecodes(gs, y, live, k);
    }
    assert r.Keys == next.Keys;
    forall k | k in r && y[k].members.Container? ensures r[k].members.Container? { StaysList(y[k], next[k]); }
  }

  lemma StaysList(y: SharedGroup, survivor: Group)
    ensures y.members.Container? ==> PrunedGroup(y, survivor).members.Container?
  {
  }
}
