/** The shared containers a collaboration session keeps beside its cache, and the targeted edits made to them. */
module SharedOverlay {
  import opened Wrappers
  import opened Groups
  import opened GroupEdits
  import opened GroupPrune
  import opened OverlayCodec

  /** A group's member list: the nested shared array, or a plain value some peer put in its place. */
  datatype Members = Container(items: seq<Json>) | Flat(value: Json)

  datatype SharedGroup = SharedGroup(fields: map<string, Json>, members: Members)

  function ToJson(y: SharedGroup): Json {
    Obj(y.fields["members" := match y.members case Container(items) => Arr(items) case Flat(v) => v])
  }

  function Decoded(y: SharedGroup): Option<Group> { DecodeGroup(ToJson(y)) }

  function BuildGroup(g: Group): SharedGroup {
    SharedGroup(map["id" := Str(g.id), "label" := Str(g.caption), "locked" := Bool(g.locked)],
                Container(EncodeAll(g.members, EncodeMember)))
  }

  function WithField(y: SharedGroup, name: string, v: Json): SharedGroup { y.(fields := y.fields[name := v]) }

  lemma BuiltDecodes(g: Group)
    ensures Decoded(BuildGroup(g)) == Some(g)
  {
    assert ToJson(BuildGroup(g)) == EncodeGroup(g);
    GroupRoundTrip(g);
  }

  lemma LockDecodes(y: SharedGroup, g: Group, locked: bool)
    requires Decoded(y) == Some(g)
    ensures Decoded(WithField(y, "locked", Bool(locked))) == Some(g.(locked := locked))
  {
    var z := WithField(y, "locked", Bool(locked));
    assert forall name :: name != "locked" ==> Field(ToJson(z), name) == Field(ToJson(y), name);
    assert |"label"| != |"locked"| && |"id"| != |"locked"| && |"members"| != |"locked"|;
    assert Field(ToJson(z), "locked") == Some(Bool(locked));
  }

  lemma CaptionDecodes(y: SharedGroup, g: Group, caption: string)
    requires Decoded(y) == Some(g)
    ensures Decoded(WithField(y, "label", Str(caption))) == Some(g.(caption := caption))
  {
    var z := WithField(y, "label", Str(caption));
    assert forall name :: name != "label" ==> Field(ToJson(z), name) == Field(ToJson(y), name);
    assert |"label"| != |"locked"| && |"id"| != |"label"| && |"members"| != |"label"|;
    assert Field(ToJson(z), "label") == Some(Str(caption));
  }

  lemma ItemsDecode(y: SharedGroup, g: Group)
    requires Decoded(y) == Some(g) && y.members.Container?
    ensures DecodeAll(y.members.items, DecodeMember) == Some(g.members)
  {
    assert Field(ToJson(y), "members") == Some(Arr(y.members.items));
  }

  lemma MembersDecode(y: SharedGroup, g: Group, items: seq<Json>, ms: seq<Member>)
    requires Decoded(y) == Some(g) && DecodeAll(items, DecodeMember) == Some(ms)
    ensures Decoded(y.(members := Container(items))) == Some(g.(members := ms))
  {
    var z := y.(members := Container(items));
    assert forall name :: name != "members" ==> Field(ToJson(z), name) == Field(ToJson(y), name);
    assert |"members"| != |"locked"| && |"id"| != |"members"| && |"members"| != |"label"|;
    assert Field(ToJson(z), "members") == Some(Arr(items));
  }

  // ---- Editing a member list ----

  predicate IsSub(j: Json, d: Id) { Field(j, "kind") == Some(Str("group")) && Field(j, "id") == Some(Str(d)) }

  lemma IsSubDecoded(j: Json, m: Member, d: Id)
    requires DecodeMember(j) == Some(m)
    ensures IsSub(j, d) <==> m == Sub(d)
  {
    assert |"node"| != |"group"|;
  }

  lemma {:induction false} DecodedPointwise<V>(items: seq<Json>, vs: seq<V>, dec: Json -> Option<V>)
    ensures DecodeAll(items, dec) == Some(vs) <==>
            |items| == |vs| && forall i :: 0 <= i < |items| ==> dec(items[i]) == Some(vs[i])
  {
    if items == [] {
    } else if vs == [] {
      assert DecodeAll(items, dec).Some? ==> |DecodeAll(items, dec).value| > 0;
    } else {
      DecodedPointwise(items[1..], vs[1..], dec);
      assert vs == [vs[0]] + vs[1..];
      if |items| == |vs| && forall i :: 0 <= i < |items| ==> dec(items[i]) == Some(vs[i]) {
        forall i | 0 <= i < |items[1..]| ensures dec(items[1..][i]) == Some(vs[1..][i]) {
          assert items[1..][i] == items[i + 1];
        }
      }
      if DecodeAll(items, dec) == Some(vs) {
        assert DecodeAll(items[1..], dec) == Some(vs[1..]);
        forall i | 0 <= i < |items| ensures dec(items[i]) == Some(vs[i]) {
          if i > 0 { assert items[i] == items[1..][i - 1] && vs[i] == vs[1..][i - 1]; }
        }
      }
    }
  }

  /** `freed` put in place of the first reference to `d`. */
  function SpliceFirst(ms: seq<Member>, d: Id, freed: seq<Member>): seq<Member> {
    if ms == [] then []
    else if ms[0] == Sub(d) then freed + ms[1..]
    else [ms[0]] + SpliceFirst(ms[1..], d, freed)
  }

  function References(ms: seq<Member>, d: Id): nat {
    if ms == [] then 0 else (if ms[0] == Sub(d) then 1 else 0) + References(ms[1..], d)
  }

  function Times(n: nat, k: int): int { if n == 0 then 0 else k + Times(n - 1, k) }

  lemma {:induction false} TimesNonZero(n: nat, k: int)
    requires n > 0 && k != 0
    ensures k > 0 ==> Times(n, k) > 0
    ensures k < 0 ==> Times(n, k) < 0
  {
    if n > 1 { TimesNonZero(n - 1, k); }
  }

  lemma {:induction false} FlattenedLength(ms: seq<Member>, d: Id, freed: seq<Member>)
    ensures |Flattened(ms, d, freed)| == |ms| + Times(References(ms, d), |freed| - 1)
    ensures References(ms, d) == 0 <==> Sub(d) !in ms
  {
    if ms != [] { FlattenedLength(ms[1..], d, freed); }
  }

  lemma FlattenedSame(ms: seq<Member>, d: Id, freed: seq<Member>)
    ensures Flattened(ms, d, freed) == ms <==> References(ms, d) == 0 || freed == [Sub(d)]
  {
    hide Flattened, References, Times;
    FlattenedLength(ms, d, freed);
    if References(ms, d) == 0 {
      FlattenedWithout(ms, d, freed);
    } else if freed == [Sub(d)] {
      FlattenedIdentity(ms, d);
    } else {
      if |freed| != 1 { TimesNonZero(References(ms, d), |freed| - 1); }
      FlattenedHas(ms, d, freed, Sub(d));
    }
  }

  lemma {:induction false} FlattenedIdentity(ms: seq<Member>, d: Id)
    ensures Flattened(ms, d, [Sub(d)]) == ms
  {
    if ms != [] { FlattenedIdentity(ms[1..], d); }
  }

  /** Editing at the first reference is the same as replacing every one exactly when there is at most one, or the
  replacement is the reference itself. */
  lemma {:induction false} SpliceIsFlatten(ms: seq<Member>, d: Id, freed: seq<Member>)
    ensures SpliceFirst(ms, d, freed) == Flattened(ms, d, freed) <==> References(ms, d) <= 1 || freed == [Sub(d)]
  {
    if ms != [] {
      var rest := ms[1..];
      if ms[0] == Sub(d) {
        FlattenedSame(rest, d, freed);
        assert (freed + rest)[|freed|..] == rest;
        assert (freed + Flattened(rest, d, freed))[|freed|..] == Flattened(rest, d, freed);
      } else {
        SpliceIsFlatten(rest, d, freed);
        assert ([ms[0]] + SpliceFirst(rest, d, freed))[1..] == SpliceFirst(rest, d, freed);
        assert ([ms[0]] + Flattened(rest, d, freed))[1..] == Flattened(rest, d, freed);
      }
    }
  }

  /** The stored members with `freed` put in place of the first reference to `d`. */
  function SpliceItems(items: seq<Json>, d: Id, freed: seq<Json>): seq<Json> {
    if items == [] then []
    else if IsSub(items[0], d) then freed + items[1..]
    else [items[0]] + SpliceItems(items[1..], d, freed)
  }

  lemma {:induction false} SpliceItemsAt(items: seq<Json>, d: Id, freed: seq<Json>, idx: nat)
    requires idx < |items| && IsSub(items[idx], d) && forall k :: 0 <= k < idx ==> !IsSub(items[k], d)
    ensures SpliceItems(items, d, freed) == items[..idx] + freed + items[idx + 1..]
  {
    if idx > 0 {
      SpliceItemsAt(items[1..], d, freed, idx - 1);
      assert items[..idx] == [items[0]] + items[1..][..idx - 1];
    }
  }

  lemma {:induction false} SpliceItemsNone(items: seq<Json>, d: Id, freed: seq<Json>)
    requires forall k :: 0 <= k < |items| ==> !IsSub(items[k], d)
    ensures SpliceItems(items, d, freed) == items
  {
    if items != [] { SpliceItemsNone(items[1..], d, freed); }
  }

  /** Finds the first reference to `d`, takes it out and puts the freed members there. */
  method SpliceMembers(items: seq<Json>, d: Id, freed: seq<Member>) returns (r: seq<Json>)
    ensures r == SpliceItems(items, d, EncodeAll(freed, EncodeMember))
  {
    var idx, encoded := 0, EncodeAll(freed, EncodeMember);
    while idx < |items| && !IsSub(items[idx], d)
      invariant idx <= |items| && forall k :: 0 <= k < idx ==> !IsSub(items[k], d)
    {
      idx := idx + 1;
    }
    if idx == |items| {
      SpliceItemsNone(items, d, encoded);
      return items;
    }
    SpliceItemsAt(items, d, encoded, idx);
    r := items[..idx] + items[idx + 1..];
    r := if |encoded| > 0 then r[..idx] + encoded + r[idx..] else r;
    assert r == items[..idx] + encoded + items[idx + 1..];
  }

  lemma DecodeConcat<V>(a: seq<Json>, b: seq<Json>, va: seq<V>, vb: seq<V>, dec: Json -> Option<V>)
    requires DecodeAll(a, dec) == Some(va) && DecodeAll(b, dec) == Some(vb)
    ensures DecodeAll(a + b, dec) == Some(va + vb)
  {
    DecodedPointwise(a, va, dec);
    DecodedPointwise(b, vb, dec);
    DecodedPointwise(a + b, va + vb, dec);
  }

  /** The stored splice decodes to the splice on members. */
  lemma {:induction false} SplicedDecodes(items: seq<Json>, ms: seq<Member>, d: Id, freed: seq<Member>)
    requires DecodeAll(items, DecodeMember) == Some(ms)
    ensures DecodeAll(SpliceItems(items, d, EncodeAll(freed, EncodeMember)), DecodeMember) ==
            Some(SpliceFirst(ms, d, freed))
  {
    if items != [] {
      IsSubDecoded(items[0], ms[0], d);
      assert DecodeAll(items[1..], DecodeMember) == Some(ms[1..]);
      if IsSub(items[0], d) {
        MembersRoundTrip(freed);
        DecodeConcat(EncodeAll(freed, EncodeMember), items[1..], freed, ms[1..], DecodeMember);
      } else {
        var rest := SpliceItems(items[1..], d, EncodeAll(freed, EncodeMember));
        SplicedDecodes(items[1..], ms[1..], d, freed);
        assert ([items[0]] + rest)[1..] == rest;
      }
    }
  }

  // ---- Dropping members ----

  function Only(ms: seq<Member>, keep: set<Member>): seq<Member> {
    if ms == [] then [] else (if ms[0] in keep then [ms[0]] else []) + Only(ms[1..], keep)
  }

  /** The text key a member is remembered by. */
  function MemberKey(m: Member): string { (if m.Node? then "node" else "group") + ":" + m.id }

  function JsonKey(j: Json): string {
    match (AsStr(Field(j, "kind")), AsStr(Field(j, "id")))
    case (Some(kind), Some(id)) => kind + ":" + id
    case _ => ""
  }

  lemma KeysDiffer(a: Member, b: Member)
    ensures MemberKey(a) == MemberKey(b) <==> a == b
  {
    assert MemberKey(a)[0] == if a.Node? then 'n' else 'g';
    assert MemberKey(b)[0] == if b.Node? then 'n' else 'g';
    assert MemberKey(a)[if a.Node? then 5 else 6..] == a.id;
    assert MemberKey(b)[if b.Node? then 5 else 6..] == b.id;
  }

  lemma KeyDecoded(j: Json, m: Member)
    requires DecodeMember(j) == Some(m)
    ensures JsonKey(j) == MemberKey(m)
  {
    assert |"node"| != |"group"|;
  }

  function KeySet(ms: seq<Member>): set<string> { set m | m in ms :: MemberKey(m) }

  lemma KeySetExact(ms: seq<Member>, m: Member)
    ensures MemberKey(m) in KeySet(ms) <==> m in ms
  {
    if MemberKey(m) in KeySet(ms) {
      var k :| k in ms && MemberKey(k) == MemberKey(m);
      KeysDiffer(k, m);
    }
  }

  function KeptItems(items: seq<Json>, keys: set<string>): seq<Json> {
    if items == [] then [] else (if JsonKey(items[0]) in keys then [items[0]] else []) + KeptItems(items[1..], keys)
  }

  /** Deletes, from the back, every member whose key is not kept. */
  method DropMembers(current: seq<Json>, keys: set<string>) returns (left: seq<Json>)
    ensures left == KeptItems(current, keys)
  {
    left := current;
    var i := |current|;
    while i > 0
      invariant 0 <= i <= |current| && left == current[..i] + KeptItems(current[i..], keys)
    {
      i := i - 1;
      assert current[i..] == [current[i]] + current[i + 1..];
      assert current[..i + 1] == current[..i] + [current[i]];
      if JsonKey(current[i]) !in keys {
        left := left[..i] + left[i + 1..];
      }
    }
    assert current[i..] == current;
  }

  /** Deleting by key decodes to keeping members. */
  lemma {:induction false} KeptItemsDecode(items: seq<Json>, ms: seq<Member>, kept: seq<Member>)
    requires DecodeAll(items, DecodeMember) == Some(ms)
    ensures DecodeAll(KeptItems(items, KeySet(kept)), DecodeMember) == Some(Only(ms, set m | m in kept))
  {
    if items != [] {
      KeyDecoded(items[0], ms[0]);
      KeySetExact(kept, ms[0]);
      assert DecodeAll(items[1..], DecodeMember) == Some(ms[1..]);
      KeptItemsDecode(items[1..], ms[1..], kept);
      var rest := KeptItems(items[1..], KeySet(kept));
      var keep := set m | m in kept;
      assert ms == [ms[0]] + ms[1..] && (ms[0] in keep <==> ms[0] in kept);
      assert ([items[0]] + rest)[1..] == rest;
      if ms[0] in kept {
        assert DecodeAll([items[0]] + rest, DecodeMember) == Some([ms[0]] + Only(ms[1..], keep));
      } else {
        assert KeptItems(items, KeySet(kept)) == rest && Only(ms, keep) == Only(ms[1..], keep);
      }
    }
  }

  lemma {:induction false} KeptThenOnly(ms: seq<Member>, at: map<Id, Group>, live: set<Id>, keep: set<Member>)
    requires forall m :: m in keep ==> Stays(m, at, live)
    ensures Only(Kept(ms, at, live), keep) == Only(ms, keep)
  {
    if ms != [] {
      KeptThenOnly(ms[1..], at, live, keep);
      if Stays(ms[0], at, live) {
        assert Kept(ms, at, live)[1..] == Kept(ms[1..], at, live);
      } else {
        assert Kept(ms, at, live) == Kept(ms[1..], at, live);
      }
    }
  }

  lemma {:induction false} OnlyItself(ms: seq<Member>, keep: set<Member>)
    requires forall m :: m in ms ==> m in keep
    ensures Only(ms, keep) == ms
  {
    if ms != [] { OnlyItself(ms[1..], keep); }
  }

  /** A surviving group is the old one without the members pruned from it. */
  lemma {:induction false} PrunedIsOnly(gs: GroupMap, live: set<Id>, g: Id)
    requires IsMap(gs) && g in Pruned(gs, live).at
    ensures g in gs.at
    ensures Pruned(gs, live).at[g] ==
            gs.at[g].(members := Only(gs.at[g].members, set m | m in Pruned(gs, live).at[g].members))
    ensures forall m :: m in Pruned(gs, live).at[g].members ==> m in gs.at[g].members
    decreases |gs.keys| + MemberCount(gs)
  {
    SteadyIsFixed(gs, live);
    SweepIsMap(gs, live);
    var keep := set m | m in Pruned(gs, live).at[g].members;
    if Sweep(gs, live) == gs {
      OnlyItself(gs.at[g].members, keep);
    } else {
      PrunedIsOnly(Sweep(gs, live), live, g);
      KeptThenOnly(gs.at[g].members, gs.at, live, keep);
    }
  }

  // ---- Materialising ----

  /** The cached value of every key is what its shared value decodes to. */
  ghost predicate Agree<V>(y: map<Id, Json>, c: map<Id, V>, dec: Json -> Option<V>) {
    y.Keys == c.Keys && forall k :: k in y ==> dec(y[k]) == Some(c[k])
  }

  /** The payload handed to the decoder: the entries of a shared map, in whatever order it hands them out. */
  function Payload(keys: seq<Id>, y: map<Id, Json>): Json
    requires forall k :: k in keys ==> k in y
  {
    EncodeMap(keys, y, (j: Json) => j)
  }

  lemma PayloadDecodes<V(!new)>(keys: seq<Id>, y: map<Id, Json>, c: map<Id, V>, dec: Json -> Option<V>)
    requires forall k :: k in keys <==> k in y
    ensures Agree(y, c, dec) ==> DecodeMap(Some(Payload(keys, y)), dec) == Some(c)
    ensures DecodeMap(Some(Payload(keys, y)), dec) == Some(c) ==> Agree(y, c, dec)
  {
    if Agree(y, c, dec) { AgreeingPayload(keys, y, c, dec); }
    if DecodeMap(Some(Payload(keys, y)), dec) == Some(c) {
      var items := Payload(keys, y).items;
      PayloadItems(keys, y, dec);
      var ps := DecodePairs(items, dec).value;
      DecodedPointwise(items, ps, (j: Json) => DecodePair(j, dec));
      PairsOfPayload(keys, y, dec, ps);
    }
  }

  lemma AgreeingPayload<V(!new)>(keys: seq<Id>, y: map<Id, Json>, c: map<Id, V>, dec: Json -> Option<V>)
    requires (forall k :: k in keys <==> k in y) && Agree(y, c, dec)
    ensures DecodeMap(Some(Payload(keys, y)), dec) == Some(c)
  {
    hide Restrict, ToMap, EncodeAll, DecodeAll;
    PayloadItems(keys, y, dec);
    DecodedPointwise(Payload(keys, y).items, Pairs(keys, c), (j: Json) => DecodePair(j, dec));
    ToMapOfPairs(keys, c);
    RestrictAll(keys, c);
  }

  lemma {:induction false} PayloadItems<V>(keys: seq<Id>, y: map<Id, Json>, dec: Json -> Option<V>)
    requires forall k :: k in keys ==> k in y
    ensures |Payload(keys, y).items| == |keys|
    ensures forall i :: 0 <= i < |keys| ==>
              DecodePair(Payload(keys, y).items[i], dec) ==
              match dec(y[keys[i]]) case None => None case Some(v) => Some((keys[i], v))
  {
    EncodeAllAt(Pairs(keys, y), (p: (Id, Json)) => EncodePair(p, (j: Json) => j));
  }

  lemma {:induction false} EncodeAllAt<V>(vs: seq<V>, enc: V -> Json)
    ensures |EncodeAll(vs, enc)| == |vs| && forall i :: 0 <= i < |vs| ==> EncodeAll(vs, enc)[i] == enc(vs[i])
  {
    if vs != [] { EncodeAllAt(vs[1..], enc); }
  }

  lemma PairsOfPayload<V>(keys: seq<Id>, y: map<Id, Json>, dec: Json -> Option<V>, ps: seq<(Id, V)>)
    requires forall k :: k in keys <==> k in y
    requires |ps| == |keys| && forall i :: 0 <= i < |ps| ==>
             dec(y[keys[i]]).Some? && ps[i] == (keys[i], dec(y[keys[i]]).value)
    ensures Agree(y, ToMap(ps), dec)
  {
    var m := map k | k in y && dec(y[k]).Some? :: dec(y[k]).value;
    assert ps == Pairs(keys, m);
    ToMapOfPairs(keys, m);
  }
}
