/** The overlay's wire format, field by field: what the decoder accepts, and as what. */
module OverlayWire {
  import opened Wrappers
  import opened Groups
  import opened OverlayCodec

  // ---- Entries ----

  predicate Has(j: Json, name: string, v: Json) { j.Obj? && name in j.fields && j.fields[name] == v }

  predicate PointWire(j: Json, p: Point) { Has(j, "x", Num(p.x)) && Has(j, "y", Num(p.y)) }

  predicate SizeWire(j: Json, s: Size) {
    Has(j, "width", Num(s.width)) && Has(j, "height", Num(s.height)) && s.width >= 0.0 && s.height >= 0.0
  }

  /** All three fields are there; only the size may be null. */
  predicate OverrideWire(j: Json, o: NodeOverride) {
    && j.Obj? && "position" in j.fields && PointWire(j.fields["position"], o.position)
    && "size" in j.fields &&
       (match o.size case None => j.fields["size"] == Null case Some(s) => SizeWire(j.fields["size"], s))
    && Has(j, "pinned", Bool(o.pinned))
  }

  /** The decoder reads a position entry as `o` exactly when it has this shape. */
  lemma OverrideWireExactly(j: Json, o: NodeOverride)
    ensures DecodeOverride(j) == Some(o) <==> OverrideWire(j, o)
  {
    if j.Obj? && "position" in j.fields {
      assert forall p :: DecodePoint(j.fields["position"]) == Some(p) <==> PointWire(j.fields["position"], p);
    }
    if j.Obj? && "size" in j.fields {
      assert forall s :: DecodeSize(j.fields["size"]) == Some(s) <==> SizeWire(j.fields["size"], s);
    }
  }

  predicate MemberWire(j: Json, m: Member) {
    Has(j, "kind", Str(match m case Node(_) => "node" case Sub(_) => "group")) && Has(j, "id", Str(m.id))
  }

  lemma MemberWireExactly(j: Json, m: Member)
    ensures DecodeMember(j) == Some(m) <==> MemberWire(j, m)
  {
    assert "node" != "group" by { assert |"node"| != |"group"|; }
  }

  /** The list is read item by item, in order. */
  lemma {:induction false} AllWireExactly<V>(items: seq<Json>, vs: seq<V>, dec: Json -> Option<V>)
    ensures DecodeAll(items, dec) == Some(vs) <==>
            |items| == |vs| && forall k :: 0 <= k < |items| ==> dec(items[k]) == Some(vs[k])
  {
    if items != [] {
      if |items| == |vs| {
        AllWireExactly(items[1..], vs[1..], dec);
        assert vs == [vs[0]] + vs[1..];
        assert forall k :: 0 < k < |items| ==> items[k] == items[1..][k - 1] && vs[k] == vs[1..][k - 1];
      } else if DecodeAll(items, dec) == Some(vs) {
        AllWireExactly(items[1..], vs[1..], dec);
      }
    }
  }

  predicate GroupWire(j: Json, g: Group) {
    && Has(j, "id", Str(g.id)) && Has(j, "label", Str(g.caption)) && Has(j, "locked", Bool(g.locked))
    && "members" in j.fields && j.fields["members"].Arr? && |j.fields["members"].items| == |g.members|
    && forall k :: 0 <= k < |g.members| ==> MemberWire(j.fields["members"].items[k], g.members[k])
  }

  lemma GroupWireExactly(j: Json, g: Group)
    ensures DecodeGroup(j) == Some(g) <==> GroupWire(j, g)
  {
    if j.Obj? && "members" in j.fields && j.fields["members"].Arr? {
      var items := j.fields["members"].items;
      AllWireExactly(items, g.members, DecodeMember);
      forall k | 0 <= k < |items| == |g.members|
        ensures DecodeMember(items[k]) == Some(g.members[k]) <==> MemberWire(items[k], g.members[k])
      {
        MemberWireExactly(items[k], g.members[k]);
      }
    }
  }

  /** A field that is absent or null stands for None; otherwise `there` says what it stands for. */
  predicate LooseWire<V>(j: Json, name: string, v: Option<V>, there: (Json, V) -> bool)
    requires j.Obj?
  {
    if name !in j.fields || j.fields[name] == Null then v.None? else v.Some? && there(j.fields[name], v.value)
  }

  lemma LooseWireExactly<V>(j: Json, name: string, v: Option<V>, dec: Json -> Option<V>, there: (Json, V) -> bool)
    requires j.Obj?
    requires v.Some? && name in j.fields ==> (dec(j.fields[name]) == v <==> there(j.fields[name], v.value))
    ensures Loose(Field(j, name), dec) == Some(v) <==> LooseWire(j, name, v, there)
  {
  }

  predicate NumWire(j: Json, n: real) { j == Num(n) }

  predicate FractionWire(j: Json, n: real) { j == Num(n) && 0.0 <= n <= 1.0 }

  predicate PointsWire(j: Json, ps: seq<Point>) {
    j.Arr? && |j.items| == |ps| && forall k :: 0 <= k < |ps| ==> PointWire(j.items[k], ps[k])
  }

  predicate AccentWire(j: Json, a: Accent) {
    match a
    case Plain => j == Str("none")
    case Muted => j == Str("muted")
    case Active => j == Str("active")
    case Danger => j == Str("danger")
    case Compute => j == Str("compute")
    case Data => j == Str("data")
    case Network => j == Str("network")
    case Security => j == Str("security")
    case Ops => j == Str("ops")
  }

  /** The route is the "route" field; older entries have a boolean "curved" instead. */
  predicate RouteWire(j: Json, r: Route)
    requires j.Obj?
  {
    && ("curved" in j.fields ==> j.fields["curved"].Bool?)
    && (if "route" in j.fields then
          j.fields["route"] == Str(match r case Square => "square" case Straight => "straight" case Curved => "curved")
        else r == if Has(j, "curved", Bool(true)) then Curved else Square)
  }

  predicate EdgeStyleWire(j: Json, s: EdgeStyle) {
    && j.Obj? && RouteWire(j, s.route)
    && LooseWire(j, "routeOption", s.routeOption, NumWire) && LooseWire(j, "labelT", s.labelT, FractionWire)
    && LooseWire(j, "waypoints", s.waypoints, PointsWire) && LooseWire(j, "accent", s.accent, AccentWire)
  }

  lemma NamesDiffer()
    ensures "square" != "straight" && "square" != "curved" && "straight" != "curved"
  {
    assert "square"[1] != "straight"[1] && "square"[0] != "curved"[0] && "straight"[0] != "curved"[0];
  }

  lemma RouteWireExactly(j: Json, r: Route)
    requires j.Obj?
    ensures DecodeEdgeRoute(j) == Some(r) <==> RouteWire(j, r)
  {
    NamesDiffer();
  }

  lemma PointsWireExactly(j: Json, ps: seq<Point>)
    ensures DecodePoints(j) == Some(ps) <==> PointsWire(j, ps)
  {
    if j.Arr? { AllWireExactly(j.items, ps, DecodePoint); }
  }

  lemma AccentWireExactly(j: Json, a: Accent)
    ensures DecodeAccent(j) == Some(a) <==> AccentWire(j, a)
  {
    AccentRoundTrip(a);
    if DecodeAccent(j) == Some(a) { assert j == Str(AccentName(a)); }
  }

  lemma EdgeStyleWireExactly(j: Json, s: EdgeStyle)
    ensures DecodeEdgeStyle(j) == Some(s) <==> EdgeStyleWire(j, s)
  {
    if j.Obj? {
      RouteWireExactly(j, s.route);
      if s.waypoints.Some? && "waypoints" in j.fields { PointsWireExactly(j.fields["waypoints"], s.waypoints.value); }
      if s.accent.Some? && "accent" in j.fields { AccentWireExactly(j.fields["accent"], s.accent.value); }
      hide Loose, LooseWire, DecodeEdgeRoute, RouteWire;
      LooseWireExactly(j, "routeOption", s.routeOption, DecodeNum, NumWire);
      LooseWireExactly(j, "labelT", s.labelT, DecodeFraction, FractionWire);
      LooseWireExactly(j, "waypoints", s.waypoints, DecodePoints, PointsWire);
      LooseWireExactly(j, "accent", s.accent, DecodeAccent, AccentWire);
    }
  }

  predicate NodeStyleWire(j: Json, s: NodeStyle) {
    j.Obj? && "accent" in j.fields && AccentWire(j.fields["accent"], s.accent)
  }

  lemma NodeStyleWireExactly(j: Json, s: NodeStyle)
    ensures DecodeNodeStyle(j) == Some(s) <==> NodeStyleWire(j, s)
  {
    if Field(j, "accent").Some? { AccentWireExactly(Field(j, "accent").value, s.accent); }
  }

  // ---- Maps ----

  predicate IsEntry(j: Json) { j.Arr? && |j.items| == 2 && j.items[0].Str? }

  function KeyOf(j: Json): Id { if IsEntry(j) then j.items[0].s else "" }

  function ValueOf(j: Json): Json { if IsEntry(j) then j.items[1] else Null }

  /** No later entry has the key of entry `k`. */
  predicate LastFor(keys: seq<Id>, k: nat)
    requires k < |keys|
  {
    forall i :: k < i < |keys| ==> keys[i] != keys[k]
  }

  function Keys(items: seq<Json>): (r: seq<Id>)
    ensures |r| == |items| && forall k :: 0 <= k < |items| ==> r[k] == KeyOf(items[k])
  {
    seq(|items|, k requires 0 <= k < |items| => KeyOf(items[k]))
  }

  /** Every entry must decode, and the last one for a key counts. */
  ghost predicate MapWire<V(!new)>(j: Json, m: map<Id, V>, wire: (Json, V) -> bool) {
    && j.Arr? && AllEntries(j.items, wire) && (forall id :: id in m <==> id in Keys(j.items))
    && LastOnesCount(j.items, m, wire)
  }

  ghost predicate AllEntries<V(!new)>(items: seq<Json>, wire: (Json, V) -> bool) {
    forall k :: 0 <= k < |items| ==> IsEntry(items[k]) && exists v :: wire(ValueOf(items[k]), v)
  }

  ghost predicate LastOnesCount<V>(items: seq<Json>, m: map<Id, V>, wire: (Json, V) -> bool) {
    forall k :: 0 <= k < |items| && LastFor(Keys(items), k) ==>
      KeyOf(items[k]) in m && wire(ValueOf(items[k]), m[KeyOf(items[k])])
  }

  ghost predicate SpellsOut<V(!new)>(dec: Json -> Option<V>, wire: (Json, V) -> bool) {
    forall j, v :: dec(j) == Some(v) <==> wire(j, v)
  }

  function Firsts<V>(ps: seq<(Id, V)>): (r: seq<Id>)
    ensures |r| == |ps| && forall k :: 0 <= k < |ps| ==> r[k] == ps[k].0
  {
    seq(|ps|, k requires 0 <= k < |ps| => ps[k].0)
  }

  lemma FirstsSnoc<V>(ps: seq<(Id, V)>)
    requires ps != []
    ensures Firsts(ps) == Firsts(ps[..|ps| - 1]) + [ps[|ps| - 1].0]
  {
  }

  lemma LastInLonger(keys: seq<Id>, last: Id, k: nat)
    requires k < |keys| && LastFor(keys + [last], k)
    ensures LastFor(keys, k) && keys[k] != last
  {
    var all := keys + [last];
    assert all[|keys|] != all[k];
    forall i | k < i < |keys| ensures keys[i] != keys[k] { assert all[i] != all[k]; }
  }

  lemma {:induction false} ToMapIs<V>(ps: seq<(Id, V)>)
    ensures forall id :: id in ToMap(ps) <==> id in Firsts(ps)
    ensures forall k :: 0 <= k < |ps| && LastFor(Firsts(ps), k) ==> ToMap(ps)[ps[k].0] == ps[k].1
  {
    if ps != [] {
      hide ToMap, LastFor;
      var n := |ps| - 1;
      ToMapStep(ps);
      FirstsSnoc(ps);
      ToMapIs(ps[..n]);
      forall k | 0 <= k < n && LastFor(Firsts(ps), k) ensures ToMap(ps)[ps[k].0] == ps[k].1 {
        LastInLonger(Firsts(ps[..n]), ps[n].0, k);
        assert ps[..n][k] == ps[k];
      }
    }
  }

  lemma {:induction false} SomeLast(keys: seq<Id>, id: Id) returns (k: nat)
    requires id in keys
    ensures k < |keys| && keys[k] == id && LastFor(keys, k)
  {
    var n := |keys| - 1;
    if keys[n] == id { k := n; } else { k := SomeLast(keys[..n], id); }
  }

  lemma PairIs<V>(j: Json, dec: Json -> Option<V>, p: (Id, V))
    ensures DecodePair(j, dec) == Some(p) <==> IsEntry(j) && KeyOf(j) == p.0 && dec(ValueOf(j)) == Some(p.1)
  {
  }

  /** The entries are read one by one. */
  lemma PairsAre<V>(items: seq<Json>, dec: Json -> Option<V>, ps: seq<(Id, V)>)
    ensures DecodePairs(items, dec) == Some(ps) <==>
            |items| == |ps| && forall k :: 0 <= k < |ps| ==>
              IsEntry(items[k]) && KeyOf(items[k]) == ps[k].0 && dec(ValueOf(items[k])) == Some(ps[k].1)
  {
    hide DecodeAll, DecodePair, IsEntry, KeyOf, ValueOf;
    AllWireExactly(items, ps, (j: Json) => DecodePair(j, dec));
    forall k | 0 <= k < |items| == |ps|
      ensures DecodePair(items[k], dec) == Some(ps[k]) <==>
              IsEntry(items[k]) && KeyOf(items[k]) == ps[k].0 && dec(ValueOf(items[k])) == Some(ps[k].1)
    {
      PairIs(items[k], dec, ps[k]);
    }
  }

  lemma EntriesAre<V(!new)>(items: seq<Json>, ps: seq<(Id, V)>, dec: Json -> Option<V>, wire: (Json, V) -> bool)
    requires SpellsOut(dec, wire) && DecodePairs(items, dec) == Some(ps)
    ensures AllEntries(items, wire) && Keys(items) == Firsts(ps)
    ensures forall k :: 0 <= k < |items| ==> wire(ValueOf(items[k]), ps[k].1)
  {
    hide DecodePairs, KeyOf, ValueOf, IsEntry;
    PairsAre(items, dec, ps);
    forall k | 0 <= k < |items| ensures IsEntry(items[k]) && wire(ValueOf(items[k]), ps[k].1) {
      assert dec(ValueOf(items[k])) == Some(ps[k].1);
    }
  }

  lemma LastOnesAre<V>(items: seq<Json>, ps: seq<(Id, V)>, wire: (Json, V) -> bool)
    requires |items| == |ps| && Keys(items) == Firsts(ps)
    requires forall k :: 0 <= k < |items| ==> wire(ValueOf(items[k]), ps[k].1)
    ensures LastOnesCount(items, ToMap(ps), wire)
  {
    hide ToMap, KeyOf, ValueOf, IsEntry;
    ToMapIs(ps);
    forall k | 0 <= k < |items| && LastFor(Keys(items), k)
      ensures KeyOf(items[k]) in ToMap(ps) && wire(ValueOf(items[k]), ToMap(ps)[KeyOf(items[k])])
    {
      assert KeyOf(items[k]) == Keys(items)[k] == Firsts(ps)[k] == ps[k].0;
      assert Firsts(ps)[k] in Firsts(ps) && ToMap(ps)[ps[k].0] == ps[k].1;
    }
  }

  lemma MapIsWire<V(!new)>(j: Json, m: map<Id, V>, dec: Json -> Option<V>, wire: (Json, V) -> bool)
    requires SpellsOut(dec, wire) && DecodeMap(Some(j), dec) == Some(m)
    ensures MapWire(j, m, wire)
  {
    hide ToMap, DecodePairs, AllEntries, LastOnesCount, SpellsOut;
    var ps := DecodePairs(j.items, dec).value;
    EntriesAre(j.items, ps, dec, wire);
    ToMapIs(ps);
    LastOnesAre(j.items, ps, wire);
  }

  lemma EntriesDecode<V(!new)>(items: seq<Json>, dec: Json -> Option<V>, wire: (Json, V) -> bool)
    returns (ps: seq<(Id, V)>)
    requires SpellsOut(dec, wire) && AllEntries(items, wire)
    ensures DecodePairs(items, dec) == Some(ps) && Keys(items) == Firsts(ps)
    ensures forall k :: 0 <= k < |items| ==> dec(ValueOf(items[k])) == Some(ps[k].1)
  {
    hide DecodePairs, KeyOf, ValueOf, IsEntry;
    forall k | 0 <= k < |items| ensures IsEntry(items[k]) && dec(ValueOf(items[k])).Some? {
      var v :| wire(ValueOf(items[k]), v);
      assert dec(ValueOf(items[k])) == Some(v);
    }
    ps := seq(|items|, k requires 0 <= k < |items| => (KeyOf(items[k]), dec(ValueOf(items[k])).value));
    PairsAre(items, dec, ps);
  }

  lemma WireIsMap<V(!new)>(j: Json, m: map<Id, V>, dec: Json -> Option<V>, wire: (Json, V) -> bool)
    requires SpellsOut(dec, wire) && MapWire(j, m, wire)
    ensures DecodeMap(Some(j), dec) == Some(m)
  {
    hide ToMap, DecodePairs, KeyOf, ValueOf, IsEntry, AllEntries;
    var ps := EntriesDecode(j.items, dec, wire);
    ToMapIs(ps);
    forall id | id in m ensures id in ToMap(ps) && ToMap(ps)[id] == m[id] {
      var k := SomeLast(Keys(j.items), id);
      assert Keys(j.items)[k] == Firsts(ps)[k] == ps[k].0;
      assert wire(ValueOf(j.items[k]), m[KeyOf(j.items[k])]);
    }
    assert ToMap(ps) == m;
  }

  /** A list of entries is read as `m` exactly when it has this shape. */
  lemma MapWireExactly<V(!new)>(j: Json, m: map<Id, V>, dec: Json -> Option<V>, wire: (Json, V) -> bool)
    requires SpellsOut(dec, wire)
    ensures DecodeMap(Some(j), dec) == Some(m) <==> MapWire(j, m, wire)
  {
    if DecodeMap(Some(j), dec) == Some(m) { MapIsWire(j, m, dec, wire); }
    if MapWire(j, m, wire) { WireIsMap(j, m, dec, wire); }
  }

  // ---- The whole overlay ----

  ghost predicate RequiredMap<V(!new)>(j: Json, name: string, m: map<Id, V>, wire: (Json, V) -> bool)
    requires j.Obj?
  {
    name in j.fields && MapWire(j.fields[name], m, wire)
  }

  /** Older payloads have no styles. */
  ghost predicate LateMap<V(!new)>(j: Json, name: string, m: map<Id, V>, wire: (Json, V) -> bool)
    requires j.Obj?
  {
    if name in j.fields then MapWire(j.fields[name], m, wire) else m == map[]
  }

  predicate IdentityWire(j: Json, ids: Option<seq<string>>)
    requires j.Obj?
  {
    if "identity" !in j.fields then ids.None?
    else
      var v := j.fields["identity"];
      v.Arr? && ids.Some? && |v.items| == |ids.value| && forall k :: 0 <= k < |ids.value| ==>
          v.items[k] == Str(ids.value[k])
  }

  ghost predicate OverlayWire(j: Json, o: Overlay) {
    && j.Obj? && RequiredMap(j, "overrides", o.overrides, OverrideWire) && RequiredMap(j, "groups", o.groups, GroupWire)
    && LateMap(j, "edgeStyles", o.edgeStyles, EdgeStyleWire) && LateMap(j, "nodeStyles", o.nodeStyles, NodeStyleWire)
    && IdentityWire(j, o.identity)
  }

  lemma AllSpelledOut()
    ensures SpellsOut(DecodeOverride, OverrideWire) && SpellsOut(DecodeGroup, GroupWire)
    ensures SpellsOut(DecodeEdgeStyle, EdgeStyleWire) && SpellsOut(DecodeNodeStyle, NodeStyleWire)
  {
    forall j, v ensures DecodeOverride(j) == Some(v) <==> OverrideWire(j, v) { OverrideWireExactly(j, v); }
    forall j, v ensures DecodeGroup(j) == Some(v) <==> GroupWire(j, v) { GroupWireExactly(j, v); }
    forall j, v ensures DecodeEdgeStyle(j) == Some(v) <==> EdgeStyleWire(j, v) { EdgeStyleWireExactly(j, v); }
    forall j, v ensures DecodeNodeStyle(j) == Some(v) <==> NodeStyleWire(j, v) { NodeStyleWireExactly(j, v); }
  }

  lemma IdentityWireExactly(j: Json, ids: Option<seq<string>>)
    requires j.Obj?
    ensures DecodeIdentity(Field(j, "identity")) == Some(ids) <==> IdentityWire(j, ids)
  {
    if "identity" in j.fields && j.fields["identity"].Arr? && ids.Some? {
      AllWireExactly(j.fields["identity"].items, ids.value, DecodeStr);
    }
  }

  lemma RequiredExactly<V(!new)>(j: Json, name: string, m: map<Id, V>, dec: Json -> Option<V>,
                                 wire: (Json, V) -> bool)
    requires j.Obj? && SpellsOut(dec, wire)
    ensures DecodeMap(Field(j, name), dec) == Some(m) <==> RequiredMap(j, name, m, wire)
  {
    if name in j.fields { MapWireExactly(j.fields[name], m, dec, wire); }
  }

  lemma LateExactly<V(!new)>(j: Json, name: string, m: map<Id, V>, dec: Json -> Option<V>, wire: (Json, V) -> bool)
    requires j.Obj? && SpellsOut(dec, wire)
    ensures DecodeLateMap(Field(j, name), dec) == Some(m) <==> LateMap(j, name, m, wire)
  {
    if name in j.fields { MapWireExactly(j.fields[name], m, dec, wire); }
  }

  /** The decoder takes a payload as the overlay `o` exactly when it is laid out like this. */
  lemma OverlayWireExactly(j: Json, o: Overlay)
    ensures DecodeOverlay(j) == Some(o) <==> OverlayWire(j, o)
  {
    if j.Obj? {
      AllSpelledOut();
      hide SpellsOut, IdentityWire, RequiredMap, LateMap, DecodeMap, DecodeLateMap, DecodeIdentity;
      RequiredExactly(j, "overrides", o.overrides, DecodeOverride, OverrideWire);
      RequiredExactly(j, "groups", o.groups, DecodeGroup, GroupWire);
      LateExactly(j, "edgeStyles", o.edgeStyles, DecodeEdgeStyle, EdgeStyleWire);
      LateExactly(j, "nodeStyles", o.nodeStyles, DecodeNodeStyle, NodeStyleWire);
      IdentityWireExactly(j, o.identity);
    }
  }
}
