/** The wire shape of the sidecar overlay: entry encoders, and the decoder that guards the way back in. */
module OverlayCodec {
  import opened Wrappers
  import opened Groups

  datatype Json =
    | Null
    | Bool(b: bool)
    | Num(n: real)
    | Str(s: string)
    | Arr(items: seq<Json>)
    | Obj(fields: map<string, Json>)

  datatype Point = Point(x: real, y: real)

  datatype Size = Size(width: real, height: real)

  datatype NodeOverride = NodeOverride(position: Point, size: Option<Size>, pinned: bool)

  datatype Route = Square | Straight | Curved

  datatype Accent = Plain | Muted | Active | Danger | Compute | Data | Network | Security | Ops

  datatype EdgeStyle = EdgeStyle(route: Route, routeOption: Option<real>, labelT: Option<real>,
                                 waypoints: Option<seq<Point>>, accent: Option<Accent>)

  datatype NodeStyle = NodeStyle(accent: Accent)

  /** The overlay a document holds. */
  datatype Snapshot = Snapshot(overrides: map<Id, NodeOverride>, groups: GroupMap,
                               edgeStyles: map<Id, EdgeStyle>, nodeStyles: map<Id, NodeStyle>)

  /** Every entry but that of `id` is as it was. */
  ghost predicate OnlyAt<V>(before: map<Id, V>, after: map<Id, V>, id: Id) {
    forall k :: k != id ==> (k in after <==> k in before) && (k in before ==> after[k] == before[k])
  }

  /** One entry set or, for None, deleted. */
  function Put<V>(m: map<Id, V>, id: Id, v: Option<V>): (r: map<Id, V>)
    ensures OnlyAt(m, r, id) && (v.None? ==> id !in r) && (v.Some? ==> id in r && r[id] == v.value)
  {
    if v.None? then m - {id} else m[id := v.value]
  }

  datatype Overlay = Overlay(overrides: map<Id, NodeOverride>, groups: map<Id, Group>,
                             edgeStyles: map<Id, EdgeStyle>, nodeStyles: map<Id, NodeStyle>,
                             identity: Option<seq<string>>)

  // ---- Scalars ----

  function Field(j: Json, name: string): Option<Json> {
    if j.Obj? && name in j.fields then Some(j.fields[name]) else None
  }

  function AsNum(j: Option<Json>): Option<real> { if j.Some? && j.value.Num? then Some(j.value.n) else None }

  function AsStr(j: Option<Json>): Option<string> { if j.Some? && j.value.Str? then Some(j.value.s) else None }

  function AsBool(j: Option<Json>): Option<bool> { if j.Some? && j.value.Bool? then Some(j.value.b) else None }

  /** A field that may be missing or null; what is there must decode. */
  function Loose<V>(j: Option<Json>, dec: Json -> Option<V>): Option<Option<V>> {
    if j == None || j.value == Null then Some(None)
    else match dec(j.value) case None => None case Some(v) => Some(Some(v))
  }

  function Nullable<V>(v: Option<V>, enc: V -> Json): Json { if v.None? then Null else enc(v.value) }

  // ---- Sequences ----

  function DecodeAll<V>(items: seq<Json>, dec: Json -> Option<V>): Option<seq<V>> {
    if items == [] then Some([])
    else
      match (dec(items[0]), DecodeAll(items[1..], dec))
      case (Some(v), Some(rest)) => Some([v] + rest)
      case _ => None
  }

  function EncodeAll<V>(vs: seq<V>, enc: V -> Json): (r: seq<Json>)
    ensures |r| == |vs|
  {
    if vs == [] then [] else [enc(vs[0])] + EncodeAll(vs[1..], enc)
  }

  predicate Every<V>(vs: seq<V>, ok: V -> bool) { vs == [] || (ok(vs[0]) && Every(vs[1..], ok)) }

  /** A list survives the trip exactly when each of its elements does. */
  lemma {:induction false} AllRoundTrip<V>(vs: seq<V>, enc: V -> Json, dec: Json -> Option<V>, ok: V -> bool)
    requires forall v :: v in vs ==> dec(enc(v)) == if ok(v) then Some(v) else None
    ensures DecodeAll(EncodeAll(vs, enc), dec) == if Every(vs, ok) then Some(vs) else None
  {
    if vs != [] {
      AllRoundTrip(vs[1..], enc, dec, ok);
      assert vs[0] in vs;
      assert EncodeAll(vs, enc)[0] == enc(vs[0]) && EncodeAll(vs, enc)[1..] == EncodeAll(vs[1..], enc);
      assert [vs[0]] + vs[1..] == vs;
    }
  }

  predicate Anything<V>(v: V) { true }

  lemma {:induction false} EveryAnything<V>(vs: seq<V>)
    ensures Every(vs, Anything)
  {
    if vs != [] { EveryAnything(vs[1..]); }
  }

  lemma {:induction false} AllDecoded<V>(items: seq<Json>, dec: Json -> Option<V>, ok: V -> bool)
    requires forall j :: j in items && dec(j).Some? ==> ok(dec(j).value)
    ensures DecodeAll(items, dec).Some? ==> forall v :: v in DecodeAll(items, dec).value ==> ok(v)
  {
    if items != [] {
      assert items[0] in items;
      AllDecoded(items[1..], dec, ok);
    }
  }

  // ---- Entries ----

  function EncodePoint(p: Point): Json { Obj(map["x" := Num(p.x), "y" := Num(p.y)]) }

  function DecodePoint(j: Json): Option<Point> {
    match (AsNum(Field(j, "x")), AsNum(Field(j, "y")))
    case (Some(x), Some(y)) => Some(Point(x, y))
    case _ => None
  }

  function EncodeSize(s: Size): Json { Obj(map["width" := Num(s.width), "height" := Num(s.height)]) }

  /** A negative size is rejected here rather than raising an error further in. */
  function DecodeSize(j: Json): Option<Size> {
    match (AsNum(Field(j, "width")), AsNum(Field(j, "height")))
    case (Some(w), Some(h)) => if w >= 0.0 && h >= 0.0 then Some(Size(w, h)) else None
    case _ => None
  }

  function EncodeOverride(o: NodeOverride): Json {
    Obj(map["position" := EncodePoint(o.position), "size" := Nullable(o.size, EncodeSize), "pinned" := Bool(o.pinned)])
  }

  /** The size is required, and may be null. */
  function DecodeOverride(j: Json): Option<NodeOverride> {
    if Field(j, "position").None? || Field(j, "size").None? then None
    else
      match (DecodePoint(Field(j, "position").value), Loose(Field(j, "size"), DecodeSize), AsBool(Field(j, "pinned")))
      case (Some(p), Some(s), Some(b)) => Some(NodeOverride(p, s, b))
      case _ => None
  }

  function EncodeMember(m: Member): Json {
    Obj(map["kind" := Str(if m.Node? then "node" else "group"), "id" := Str(m.id)])
  }

  function DecodeMember(j: Json): Option<Member> {
    match (AsStr(Field(j, "kind")), AsStr(Field(j, "id")))
    case (Some(kind), Some(id)) =>
      if kind == "node" then Some(Node(id)) else if kind == "group" then Some(Sub(id)) else None
    case _ => None
  }

  function EncodeGroup(g: Group): Json {
    Obj(map["id" := Str(g.id), "label" := Str(g.caption), "members" := Arr(EncodeAll(g.members, EncodeMember)),
            "locked" := Bool(g.locked)])
  }

  function DecodeMembers(j: Option<Json>): Option<seq<Member>> {
    if j.Some? && j.value.Arr? then DecodeAll(j.value.items, DecodeMember) else None
  }

  function DecodeGroup(j: Json): Option<Group> {
    match (AsStr(Field(j, "id")), AsStr(Field(j, "label")), DecodeMembers(Field(j, "members")),
           AsBool(Field(j, "locked")))
    case (Some(id), Some(caption), Some(members), Some(locked)) => Some(Group(id, caption, members, locked))
    case _ => None
  }

  function RouteName(r: Route): string {
    match r case Square => "square" case Straight => "straight" case Curved => "curved"
  }

  function DecodeRoute(j: Json): Option<Route> {
    if j == Str("square") then Some(Square)
    else if j == Str("straight") then Some(Straight)
    else if j == Str("curved") then Some(Curved)
    else None
  }

  function AccentName(a: Accent): string {
    match a
    case Plain => "none"
    case Muted => "muted"
    case Active => "active"
    case Danger => "danger"
    case Compute => "compute"
    case Data => "data"
    case Network => "network"
    case Security => "security"
    case Ops => "ops"
  }

  function EncodeAccent(a: Accent): Json { Str(AccentName(a)) }

  function DecodeAccent(j: Json): Option<Accent> {
    if j == Str("none") then Some(Plain)
    else if j == Str("muted") then Some(Muted)
    else if j == Str("active") then Some(Active)
    else if j == Str("danger") then Some(Danger)
    else if j == Str("compute") then Some(Compute)
    else if j == Str("data") then Some(Data)
    else if j == Str("network") then Some(Network)
    else if j == Str("security") then Some(Security)
    else if j == Str("ops") then Some(Ops)
    else None
  }

  function EncodeNum(n: real): Json { Num(n) }

  function DecodeNum(j: Json): Option<real> { if j.Num? then Some(j.n) else None }

  function DecodeFraction(j: Json): Option<real> { if j.Num? && 0.0 <= j.n <= 1.0 then Some(j.n) else None }

  function EncodePoints(ps: seq<Point>): Json { Arr(EncodeAll(ps, EncodePoint)) }

  function DecodePoints(j: Json): Option<seq<Point>> { if j.Arr? then DecodeAll(j.items, DecodePoint) else None }

  function EncodeEdgeStyle(s: EdgeStyle): Json {
    Obj(map["route" := Str(RouteName(s.route)), "routeOption" := Nullable(s.routeOption, EncodeNum),
            "labelT" := Nullable(s.labelT, EncodeNum), "waypoints" := Nullable(s.waypoints, EncodePoints),
            "accent" := Nullable(s.accent, EncodeAccent)])
  }

  /** The route field, or the older boolean it replaced; a route of null is not accepted. */
  function DecodeEdgeRoute(j: Json): Option<Route> {
    if Field(j, "curved").Some? && !Field(j, "curved").value.Bool? then None
    else if Field(j, "route").Some? then DecodeRoute(Field(j, "route").value)
    else Some(if Field(j, "curved") == Some(Bool(true)) then Curved else Square)
  }

  function DecodeEdgeStyle(j: Json): Option<EdgeStyle> {
    if !j.Obj? then None
    else
      match (DecodeEdgeRoute(j), Loose(Field(j, "routeOption"), DecodeNum), Loose(Field(j, "labelT"), DecodeFraction),
             Loose(Field(j, "waypoints"), DecodePoints), Loose(Field(j, "accent"), DecodeAccent))
      case (Some(r), Some(o), Some(t), Some(w), Some(a)) => Some(EdgeStyle(r, o, t, w, a))
      case _ => None
  }

  function EncodeNodeStyle(s: NodeStyle): Json { Obj(map["accent" := EncodeAccent(s.accent)]) }

  function DecodeNodeStyle(j: Json): Option<NodeStyle> {
    if Field(j, "accent").None? then None
    else match DecodeAccent(Field(j, "accent").value) case None => None case Some(a) => Some(NodeStyle(a))
  }

  // ---- What survives ----

  predicate ValidSize(s: Size) { s.width >= 0.0 && s.height >= 0.0 }

  predicate ValidOverride(o: NodeOverride) { o.size.Some? ==> ValidSize(o.size.value) }

  predicate ValidEdgeStyle(s: EdgeStyle) { s.labelT.Some? ==> 0.0 <= s.labelT.value <= 1.0 }

  lemma NullableRoundTrip<V>(v: Option<V>, enc: V -> Json, dec: Json -> Option<V>, ok: bool)
    requires v.Some? ==> enc(v.value) != Null && dec(enc(v.value)) == if ok then v else None
    ensures Loose(Some(Nullable(v, enc)), dec) == if v.Some? && !ok then None else Some(v)
  {
  }

  lemma OverrideRoundTrip(o: NodeOverride)
    ensures DecodeOverride(EncodeOverride(o)) == if ValidOverride(o) then Some(o) else None
  {
    assert DecodePoint(EncodePoint(o.position)) == Some(o.position);
    if o.size.Some? { assert DecodeSize(EncodeSize(o.size.value)) == if ValidSize(o.size.value) then o.size else None; }
  }

  lemma MemberRoundTrip(m: Member)
    ensures DecodeMember(EncodeMember(m)) == Some(m)
  {
    assert "node" != "group" by { assert |"node"| != |"group"|; }
  }

  lemma MembersRoundTrip(ms: seq<Member>)
    ensures DecodeAll(EncodeAll(ms, EncodeMember), DecodeMember) == Some(ms)
  {
    forall m | m in ms ensures DecodeMember(EncodeMember(m)) == Some(m) { MemberRoundTrip(m); }
    AllRoundTrip(ms, EncodeMember, DecodeMember, Anything);
    EveryAnything(ms);
  }

  lemma GroupRoundTrip(g: Group)
    ensures DecodeGroup(EncodeGroup(g)) == Some(g)
  {
    MembersRoundTrip(g.members);
  }

  lemma AccentRoundTrip(a: Accent)
    ensures DecodeAccent(EncodeAccent(a)) == Some(a)
  {
  }

  lemma PointsRoundTrip(ps: seq<Point>)
    ensures DecodePoints(EncodePoints(ps)) == Some(ps)
  {
    forall p | p in ps ensures DecodePoint(EncodePoint(p)) == Some(p) {}
    AllRoundTrip(ps, EncodePoint, DecodePoint, Anything);
    EveryAnything(ps);
  }

  lemma EdgeStyleRoundTrip(s: EdgeStyle)
    ensures DecodeEdgeStyle(EncodeEdgeStyle(s)) == if ValidEdgeStyle(s) then Some(s) else None
  {
    if s.waypoints.Some? { PointsRoundTrip(s.waypoints.value); }
    if s.accent.Some? { AccentRoundTrip(s.accent.value); }
    NullableRoundTrip(s.routeOption, EncodeNum, DecodeNum, true);
    NullableRoundTrip(s.labelT, EncodeNum, DecodeFraction, ValidEdgeStyle(s));
    NullableRoundTrip(s.waypoints, EncodePoints, DecodePoints, true);
    NullableRoundTrip(s.accent, EncodeAccent, DecodeAccent, true);
    EdgeFields(s, EncodeEdgeStyle(s));
    RouteRoundTrip(s.route);
  }

  lemma EdgeFields(s: EdgeStyle, j: Json)
    requires j == EncodeEdgeStyle(s)
    ensures Field(j, "route") == Some(Str(RouteName(s.route))) && Field(j, "curved") == None
    ensures Field(j, "routeOption") == Some(Nullable(s.routeOption, EncodeNum))
    ensures Field(j, "labelT") == Some(Nullable(s.labelT, EncodeNum))
    ensures Field(j, "waypoints") == Some(Nullable(s.waypoints, EncodePoints))
    ensures Field(j, "accent") == Some(Nullable(s.accent, EncodeAccent))
  {
  }

  lemma RouteRoundTrip(r: Route)
    ensures DecodeRoute(Str(RouteName(r))) == Some(r)
  {
  }

  lemma NodeStyleRoundTrip(s: NodeStyle)
    ensures DecodeNodeStyle(EncodeNodeStyle(s)) == Some(s)
  {
    AccentRoundTrip(s.accent);
  }

  // ---- Maps of entries ----

  function DecodePair<V>(j: Json, dec: Json -> Option<V>): Option<(Id, V)> {
    if j.Arr? && |j.items| == 2 && j.items[0].Str? then
      match dec(j.items[1]) case None => None case Some(v) => Some((j.items[0].s, v))
    else None
  }

  /** A later pair with the same key wins. */
  function ToMap<V>(pairs: seq<(Id, V)>): map<Id, V> {
    if pairs == [] then map[]
    else ToMap(pairs[..|pairs| - 1])[pairs[|pairs| - 1].0 := pairs[|pairs| - 1].1]
  }

  function DecodePairs<V>(items: seq<Json>, dec: Json -> Option<V>): Option<seq<(Id, V)>> {
    DecodeAll(items, (j: Json) => DecodePair(j, dec))
  }

  /** A required field holding a list of pairs. */
  function DecodeMap<V>(j: Option<Json>, dec: Json -> Option<V>): Option<map<Id, V>> {
    if j.None? || !j.value.Arr? then None
    else match DecodePairs(j.value.items, dec) case None => None case Some(ps) => Some(ToMap(ps))
  }

  function EncodePair<V>(p: (Id, V), enc: V -> Json): Json { Arr([Str(p.0), enc(p.1)]) }

  function Pairs<V>(keys: seq<Id>, m: map<Id, V>): (r: seq<(Id, V)>)
    requires forall k :: k in keys ==> k in m
    ensures |r| == |keys| && forall i :: 0 <= i < |keys| ==> r[i] == (keys[i], m[keys[i]])
  {
    if keys == [] then [] else [(keys[0], m[keys[0]])] + Pairs(keys[1..], m)
  }

  function EncodeMap<V>(keys: seq<Id>, m: map<Id, V>, enc: V -> Json): Json
    requires forall k :: k in keys ==> k in m
  {
    Arr(EncodeAll(Pairs(keys, m), (p: (Id, V)) => EncodePair(p, enc)))
  }

  function Restrict<V>(m: map<Id, V>, keys: seq<Id>): map<Id, V> { map k | k in m && k in keys :: m[k] }

  lemma RestrictSnoc<V>(keys: seq<Id>, last: Id, m: map<Id, V>)
    requires last in m
    ensures Restrict(m, keys + [last]) == Restrict(m, keys)[last := m[last]]
  {
  }

  lemma RestrictAll<V>(keys: seq<Id>, m: map<Id, V>)
    requires forall k :: k in m ==> k in keys
    ensures Restrict(m, keys) == m
  {
  }

  lemma PairsInit<V>(keys: seq<Id>, m: map<Id, V>)
    requires keys != [] && forall k :: k in keys ==> k in m
    ensures (forall k :: k in keys[..|keys| - 1] ==> k in m) && keys[|keys| - 1] in m
    ensures Pairs(keys, m)[..|keys| - 1] == Pairs(keys[..|keys| - 1], m)
  {
    hide Pairs;
  }

  lemma ToMapStep<V>(ps: seq<(Id, V)>)
    requires ps != []
    ensures ToMap(ps) == ToMap(ps[..|ps| - 1])[ps[|ps| - 1].0 := ps[|ps| - 1].1]
  {
  }

  lemma {:induction false} ToMapOfPairs<V>(keys: seq<Id>, m: map<Id, V>)
    requires forall k :: k in keys ==> k in m
    ensures ToMap(Pairs(keys, m)) == Restrict(m, keys)
  {
    if keys != [] {
      hide Restrict, Pairs, ToMap;
      var init, last := keys[..|keys| - 1], keys[|keys| - 1];
      PairsInit(keys, m);
      ToMapStep(Pairs(keys, m));
      ToMapOfPairs(init, m);
      assert keys == init + [last];
      RestrictSnoc(init, last, m);
    }
  }

  ghost predicate EveryValue<V(!new)>(m: map<Id, V>, ok: V -> bool) { forall k :: k in m ==> ok(m[k]) }

  lemma {:induction false} EveryPair<V(!new)>(keys: seq<Id>, m: map<Id, V>, ok: V -> bool)
    requires forall k :: k in keys ==> k in m
    ensures Every(Pairs(keys, m), (p: (Id, V)) => ok(p.1)) <==> forall k :: k in keys ==> ok(m[k])
  {
    if keys != [] {
      EveryPair(keys[1..], m, ok);
      assert Pairs(keys, m)[1..] == Pairs(keys[1..], m);
      assert forall k :: k in keys <==> k == keys[0] || k in keys[1..];
    }
  }

  /** A map survives the trip, whatever order its entries are listed in, exactly when each of its values does. */
  lemma MapRoundTrip<V(!new)>(keys: seq<Id>, m: map<Id, V>, enc: V -> Json, dec: Json -> Option<V>, ok: V -> bool)
    requires forall k :: k in keys <==> k in m
    requires forall v :: dec(enc(v)) == if ok(v) then Some(v) else None
    ensures DecodeMap(Some(EncodeMap(keys, m, enc)), dec) == if EveryValue(m, ok) then Some(m) else None
  {
    var pairs := Pairs(keys, m);
    var encP, decP := (p: (Id, V)) => EncodePair(p, enc), (j: Json) => DecodePair(j, dec);
    var okP := (p: (Id, V)) => ok(p.1);
    forall p | p in pairs ensures decP(encP(p)) == if okP(p) then Some(p) else None {
      assert EncodePair(p, enc).items[0] == Str(p.0) && EncodePair(p, enc).items[1] == enc(p.1);
    }
    AllRoundTrip(pairs, encP, decP, okP);
    EveryPair(keys, m, ok);
    ToMapOfPairs(keys, m);
    RestrictAll(keys, m);
  }

  // ---- The whole overlay ----

  /** The order in which each map hands out its entries. */
  datatype Order = Order(overrides: seq<Id>, groups: seq<Id>, edgeStyles: seq<Id>, nodeStyles: seq<Id>)

  ghost predicate OrderOf(o: Overlay, order: Order) {
    && (forall k :: k in order.overrides <==> k in o.overrides)
    && (forall k :: k in order.groups <==> k in o.groups)
    && (forall k :: k in order.edgeStyles <==> k in o.edgeStyles)
    && (forall k :: k in order.nodeStyles <==> k in o.nodeStyles)
  }

  function EncodeStr(s: string): Json { Str(s) }

  function DecodeStr(j: Json): Option<string> { if j.Str? then Some(j.s) else None }

  /** The identity list is left out when there is none. */
  function SerializeOverlay(o: Overlay, order: Order): Json
    requires OrderOf(o, order)
  {
    var fields := map["overrides" := EncodeMap(order.overrides, o.overrides, EncodeOverride),
                      "groups" := EncodeMap(order.groups, o.groups, EncodeGroup),
                      "edgeStyles" := EncodeMap(order.edgeStyles, o.edgeStyles, EncodeEdgeStyle),
                      "nodeStyles" := EncodeMap(order.nodeStyles, o.nodeStyles, EncodeNodeStyle)];
    Obj(if o.identity.None? then fields else fields["identity" := Arr(EncodeAll(o.identity.value, EncodeStr))])
  }

  /** A field that older payloads do not have. */
  function DecodeLateMap<V>(j: Option<Json>, dec: Json -> Option<V>): Option<map<Id, V>> {
    if j.None? then Some(map[]) else DecodeMap(j, dec)
  }

  function DecodeIdentity(j: Option<Json>): Option<Option<seq<string>>> {
    if j.None? then Some(None)
    else if !j.value.Arr? then None
    else match DecodeAll(j.value.items, DecodeStr) case None => None case Some(ids) => Some(Some(ids))
  }

  function DecodeOverlay(j: Json): Option<Overlay> {
    match (DecodeMap(Field(j, "overrides"), DecodeOverride), DecodeMap(Field(j, "groups"), DecodeGroup),
           DecodeLateMap(Field(j, "edgeStyles"), DecodeEdgeStyle),
           DecodeLateMap(Field(j, "nodeStyles"), DecodeNodeStyle),
           DecodeIdentity(Field(j, "identity")))
    case (Some(o), Some(g), Some(e), Some(n), Some(i)) => Some(Overlay(o, g, e, n, i))
    case _ => None
  }

  ghost predicate ValidOverlay(o: Overlay) {
    EveryValue(o.overrides, ValidOverride) && EveryValue(o.edgeStyles, ValidEdgeStyle)
  }

  lemma IdentityRoundTrip(ids: seq<string>)
    ensures DecodeIdentity(Some(Arr(EncodeAll(ids, EncodeStr)))) == Some(Some(ids))
  {
    AllRoundTrip(ids, EncodeStr, DecodeStr, Anything);
    EveryAnything(ids);
  }

  lemma OverridesRoundTrip(keys: seq<Id>, m: map<Id, NodeOverride>)
    requires forall k :: k in keys <==> k in m
    ensures DecodeMap(Some(EncodeMap(keys, m, EncodeOverride)), DecodeOverride) ==
            if EveryValue(m, ValidOverride) then Some(m) else None
  {
    forall v ensures DecodeOverride(EncodeOverride(v)) == if ValidOverride(v) then Some(v) else None {
      OverrideRoundTrip(v);
    }
    MapRoundTrip(keys, m, EncodeOverride, DecodeOverride, ValidOverride);
  }

  lemma GroupsRoundTrip(keys: seq<Id>, m: map<Id, Group>)
    requires forall k :: k in keys <==> k in m
    ensures DecodeMap(Some(EncodeMap(keys, m, EncodeGroup)), DecodeGroup) == Some(m)
  {
    forall v ensures DecodeGroup(EncodeGroup(v)) == Some(v) { GroupRoundTrip(v); }
    MapRoundTrip(keys, m, EncodeGroup, DecodeGroup, Anything);
  }

  lemma EdgeStylesRoundTrip(keys: seq<Id>, m: map<Id, EdgeStyle>)
    requires forall k :: k in keys <==> k in m
    ensures DecodeLateMap(Some(EncodeMap(keys, m, EncodeEdgeStyle)), DecodeEdgeStyle) ==
            if EveryValue(m, ValidEdgeStyle) then Some(m) else None
  {
    forall v ensures DecodeEdgeStyle(EncodeEdgeStyle(v)) == if ValidEdgeStyle(v) then Some(v) else None {
      EdgeStyleRoundTrip(v);
    }
    MapRoundTrip(keys, m, EncodeEdgeStyle, DecodeEdgeStyle, ValidEdgeStyle);
  }

  lemma NodeStylesRoundTrip(keys: seq<Id>, m: map<Id, NodeStyle>)
    requires forall k :: k in keys <==> k in m
    ensures DecodeLateMap(Some(EncodeMap(keys, m, EncodeNodeStyle)), DecodeNodeStyle) == Some(m)
  {
    forall v ensures DecodeNodeStyle(EncodeNodeStyle(v)) == Some(v) { NodeStyleRoundTrip(v); }
    MapRoundTrip(keys, m, EncodeNodeStyle, DecodeNodeStyle, Anything);
  }

  lemma OverlayFields(o: Overlay, order: Order, j: Json)
    requires OrderOf(o, order) && j == SerializeOverlay(o, order)
    ensures Field(j, "overrides") == Some(EncodeMap(order.overrides, o.overrides, EncodeOverride))
    ensures Field(j, "groups") == Some(EncodeMap(order.groups, o.groups, EncodeGroup))
    ensures Field(j, "edgeStyles") == Some(EncodeMap(order.edgeStyles, o.edgeStyles, EncodeEdgeStyle))
    ensures Field(j, "nodeStyles") == Some(EncodeMap(order.nodeStyles, o.nodeStyles, EncodeNodeStyle))
    ensures Field(j, "identity") == if o.identity.None? then None else Some(Arr(EncodeAll(o.identity.value, EncodeStr)))
  {
  }

  /** A saved overlay comes back whole exactly when no size is negative and no label position is off its edge; otherwise
  the whole payload is refused. */
  lemma OverlayRoundTrip(o: Overlay, order: Order)
    requires OrderOf(o, order)
    ensures DecodeOverlay(SerializeOverlay(o, order)) == if ValidOverlay(o) then Some(o) else None
  {
    OverlayFields(o, order, SerializeOverlay(o, order));
    OverridesRoundTrip(order.overrides, o.overrides);
    GroupsRoundTrip(order.groups, o.groups);
    EdgeStylesRoundTrip(order.edgeStyles, o.edgeStyles);
    NodeStylesRoundTrip(order.nodeStyles, o.nodeStyles);
    if o.identity.Some? { IdentityRoundTrip(o.identity.value); }
  }

  lemma {:induction false} ToMapHolds<V(!new)>(pairs: seq<(Id, V)>, ok: V -> bool)
    requires forall p :: p in pairs ==> ok(p.1)
    ensures EveryValue(ToMap(pairs), ok)
  {
    if pairs != [] {
      ToMapHolds(pairs[..|pairs| - 1], ok);
      assert pairs[|pairs| - 1] in pairs;
    }
  }

  lemma DecodedMapHolds<V(!new)>(j: Option<Json>, dec: Json -> Option<V>, ok: V -> bool)
    requires forall j :: dec(j).Some? ==> ok(dec(j).value)
    ensures DecodeMap(j, dec).Some? ==> EveryValue(DecodeMap(j, dec).value, ok)
  {
    if j.Some? && j.value.Arr? && DecodePairs(j.value.items, dec).Some? {
      AllDecoded(j.value.items, (j: Json) => DecodePair(j, dec), (p: (Id, V)) => ok(p.1));
      ToMapHolds(DecodePairs(j.value.items, dec).value, ok);
    }
  }

  /** Nothing gets past the decoder that would not survive being saved again. */
  lemma DecodedIsValid(j: Json)
    ensures DecodeOverlay(j).Some? ==> ValidOverlay(DecodeOverlay(j).value)
  {
    DecodedMapHolds(Field(j, "overrides"), DecodeOverride, ValidOverride);
    DecodedMapHolds(Field(j, "edgeStyles"), DecodeEdgeStyle, ValidEdgeStyle);
  }
}
