/** The relay's objects as they are updated in place: each critical section carries out the section of the transition
system it is modelled by. */
module RelayCore {
  import opened Wrappers
  import opened Relay

  lemma OneMore(s: set<Sock>, x: Sock)
    requires x !in s
    ensures multiset(s + {x}) == multiset(s) + multiset{x}
  {
  }

  class RoomObject {
    const name: Name
    var doc: set<Update>
    var sockets: set<Sock>
    var pending: int
    var seeder: Option<Sock>
    var saveArmed: bool
    ghost var granted: set<Sock>

    ghost function Value(): Room
      reads this
    {
      Room(name, doc, sockets, pending, seeder, saveArmed, granted)
    }

    /** A room loaded from its stored snapshot, with its loader's admission pending. */
    constructor (name: Name, snapshot: set<Update>)
      ensures Value() == NewRoom(name, snapshot)
      ensures this.name == name && doc == snapshot && sockets == {} && pending == 1 && seeder == None && !saveArmed
    {
      this.name := name;
      doc, sockets, pending, seeder, saveArmed, granted := snapshot, {}, 1, None, false, {};
    }

    method ReserveSlot()
      modifies `pending
      ensures Value() == Reserve(old(Value())) && pending == old(pending) + 1
    {
      pending := pending + 1;
    }

    method Register(c: Sock)
      modifies `pending, `sockets
      ensures Value() == Join(old(Value()), c)
      ensures pending == old(pending) - 1 && sockets == old(sockets) + {c}
    {
      pending := pending - 1;
      sockets := sockets + {c};
    }

    /** The initial state for a joiner, and whether it is the one to seed the room. */
    method EncodeAndDecide(c: Sock) returns (state: set<Update>, grantSeed: bool)
      modifies `seeder, `granted
      ensures Value() == DecideSeed(old(Value()), c) && state == doc
      ensures grantSeed <==> old(seeder).None? && doc == {}
      ensures seeder == if grantSeed then Some(c) else old(seeder)
    {
      state := doc;
      grantSeed := false;
      if seeder.None? && doc == {} {
        seeder := Some(c);
        granted := granted + {c};
        grantSeed := true;
      }
    }

    /** A departure: the grant moves to whichever peer the iteration yields first, and the caller learns whether the
    room is left to nobody. */
    method Drop(c: Sock) returns (regrant: Option<Sock>, empty: bool)
      modifies `sockets, `seeder, `granted
      ensures exists heir: Sock ::
                (old(sockets) - {c} != {} ==> heir in old(sockets) - {c}) && Value() == Leave(old(Value()), c, heir)
      ensures regrant.Some? ==> regrant == seeder && regrant.value in sockets && old(seeder) == Some(c)
      ensures regrant.None? && old(seeder) == Some(c) ==> doc != {} || sockets == {}
      ensures sockets == old(sockets) - {c} && (empty <==> sockets == {} && pending == 0)
      ensures old(seeder) != Some(c) ==> seeder == old(seeder)
      ensures old(seeder) == Some(c) ==> seeder == regrant
    {
      sockets := sockets - {c};
      regrant := None;
      ghost var heir: Sock := if p :| p in sockets then p else c;
      if seeder == Some(c) {
        seeder := None;
        if doc == {} && sockets != {} {
          var peer :| peer in sockets;
          seeder := Some(peer);
          granted := granted + {peer};
          regrant := Some(peer);
          heir := peer;
        }
      }
      empty := sockets == {} && pending == 0;
      assert Value() == Leave(old(Value()), c, heir);
    }

    /** A writer's update is applied and a save scheduled. */
    method ApplyAndArm(updates: set<Update>)
      modifies `doc, `saveArmed
      ensures Value() == ApplyUpdates(old(Value()), updates).(saveArmed := true)
      ensures doc == old(doc) + updates && saveArmed
    {
      doc := doc + updates;
      saveArmed := true;
    }

    /** Everyone but the sender, each once. */
    method PeersOf(c: Sock) returns (peers: seq<Sock>)
      ensures multiset(peers) == multiset(sockets - {c})
    {
      peers := [];
      var todo := sockets;
      ghost var others: set<Sock> := {};
      while todo != {}
        invariant todo <= sockets && others == (sockets - todo) - {c}
        invariant multiset(peers) == multiset(others)
      {
        var peer :| peer in todo;
        todo := todo - {peer};
        if peer != c {
          OneMore(others, peer);
          peers := peers + [peer];
          others := others + {peer};
        }
      }
    }

    method Disarm()
      modifies `saveArmed
      ensures Value() == old(Value()).(saveArmed := false)
    {
      saveArmed := false;
    }
  }

  /** The state once the look at the registry is taken. */
  ghost function Looked(s: State, c: Sock): State
    requires LoadEnabled(s, LoadStep.Lookup(c))
  {
    Next(s, OfLoad(LoadStep.Lookup(c)))
  }

  ghost function Installed(s: State, c: Sock, newId: RoomId): State
    requires LoadEnabled(s, LoadStep.Install(c, newId))
  {
    Next(s, OfLoad(LoadStep.Install(c, newId)))
  }

  /** A look that finds the room reserves a place in it; one that finds the server full ends the admission. */
  ghost predicate FindsOrFails(s: State, next: State, c: Sock, name: Name)
    requires c in next.conns
  {
    && (name in s.registry && s.registry[name] in s.rooms ==>
          var r := s.registry[name];
          && next.registry == s.registry && next.rooms == s.rooms[r := Reserve(s.rooms[r])]
          && next.conns[c].admission == Reserved(r))
    && (name !in s.registry && |s.registry| >= 10_000 ==>
          next.registry == s.registry && next.rooms == s.rooms && next.conns[c].admission.Ended? &&
              next.conns[c].phase.Closed?)
  }

  lemma FirstLook(s: State, c: Sock, name: Name)
    requires LoadEnabled(s, LoadStep.Lookup(c)) && s.conns[c].admission == LookingUp(name)
    ensures c in Looked(s, c).conns && FindsOrFails(s, Looked(s, c), c, name)
    ensures name !in s.registry && |s.registry| < MAX_ROOMS ==>
              Looked(s, c).registry == s.registry && Looked(s, c).rooms == s.rooms &&
                  Looked(s, c).conns[c].admission == Loading(name)
  {
  }

  lemma SecondLook(s: State, c: Sock, newId: RoomId, name: Name, snapshot: set<Update>)
    requires LoadEnabled(s, LoadStep.Install(c, newId)) && s.conns[c].admission == Loaded(name, snapshot)
    ensures c in Installed(s, c, newId).conns && FindsOrFails(s, Installed(s, c, newId), c, name)
    ensures name !in s.registry && |s.registry| < MAX_ROOMS ==>
              var next := Installed(s, c, newId);
              && next.registry == s.registry[name := newId] && next.rooms == s.rooms[newId := NewRoom(name, snapshot)]
              && next.conns[c].admission == Reserved(newId) && newId !in s.rooms
  {
  }

  /** The state once an abandoned room is forgotten. */
  ghost function Forgotten(s: State, t: TaskId): State
    requires DepartureEnabled(s, DepartureStep.Forget(t))
  {
    Next(s, OfDeparture(DepartureStep.Forget(t)))
  }

  lemma ForgetsOrKeeps(s: State, t: TaskId)
    requires DepartureEnabled(s, DepartureStep.Forget(t))
    ensures t in s.tasks && s.tasks[t].room in s.rooms && Forgotten(s, t).rooms == s.rooms
    ensures var id := s.tasks[t].room;
            var n := s.rooms[id].name;
            Forgotten(s, t).registry ==
            if Abandoned(s.rooms[id]) && n in s.registry && s.registry[n] == id then s.registry - {n} else s.registry
  {
  }

  datatype Found = Joined(room: RoomObject) | Full | Missing

  class Core {
    var rooms: map<Name, RoomObject>
    /** Every room object there ever was, by its number in the transition system. */
    ghost var ids: map<RoomId, RoomObject>

    ghost predicate SameRegistry(registry: map<Name, RoomId>)
      reads this
    {
      rooms.Keys == registry.Keys && forall n :: n in rooms ==> registry[n] in ids && ids[registry[n]] == rooms[n]
    }

    ghost predicate SameRooms(values: map<RoomId, Room>)
      reads this, ids.Values
    {
      ids.Keys == values.Keys && forall r :: r in ids ==> ids[r].Value() == values[r]
    }

    ghost predicate Apart()
      reads this
    {
      forall q, r :: q in ids && r in ids && ids[q] == ids[r] ==> q == r
    }

    /** The registry and the room objects are those of the state `s`. */
    ghost predicate Mirrors(s: State)
      reads this, ids.Values
    {
      SameRegistry(s.registry) && SameRooms(s.rooms) && Apart()
    }

    /** What an admission has found is what its goroutine goes on with. */
    ghost predicate GoesOnWith(k: Conn, name: Name, found: Found)
      reads this
    {
      match found
      case Joined(room) => k.admission.Reserved? && k.admission.room in ids && ids[k.admission.room] == room
      case Full => k.admission.Ended? && k.phase.Closed?
      case Missing => k.admission == Loading(name)
    }

    constructor (store: map<Name, set<Update>>)
      ensures rooms == map[] && Mirrors(Init(store))
    {
      rooms, ids := map[], map[];
    }

    /** A look at the registry: a registered room is reserved at once. */
    method Find(name: Name, ghost s: State) returns (r: Found)
      requires Mirrors(s)
      modifies if name in rooms then {rooms[name]} else {}
      ensures name in rooms ==> r == Joined(rooms[name]) && s.registry[name] in s.rooms
      ensures name in rooms ==> var id := s.registry[name]; SameRooms(s.rooms[id := Reserve(s.rooms[id])])
      ensures name !in rooms ==> SameRooms(s.rooms) && r == if |rooms| >= MAX_ROOMS then Full else Missing
    {
      if name in rooms {
        ghost var id := s.registry[name];
        assert forall q :: q in ids && q != id ==> ids[q] != rooms[name];
        rooms[name].ReserveSlot();
        return Joined(rooms[name]);
      }
      return if |rooms| >= MAX_ROOMS then Full else Missing;
    }

    /** The registry is that of `next`, and the admission goes on with what was found. */
    ghost predicate Settled(next: State, c: Sock, name: Name, found: Found)
      reads this, ids.Values
    {
      Mirrors(next) && c in next.conns && GoesOnWith(next.conns[c], name, found)
    }

    lemma FoundSettles(s: State, next: State, c: Sock, name: Name, found: Found)
      requires c in next.conns && FindsOrFails(s, next, c, name) && SameRegistry(s.registry) && Apart()
      requires name in rooms ==>
                 var id := s.registry[name];
                 id in s.rooms && SameRooms(s.rooms[id := Reserve(s.rooms[id])])
      requires name in rooms ==> found == Joined(rooms[name])
      requires name !in rooms ==> SameRooms(s.rooms) && found == Full && |rooms| >= MAX_ROOMS
      ensures Settled(next, c, name, found)
    {
      SameSize(rooms, s.registry);
    }

    lemma SameSize<K, V, W>(a: map<K, V>, b: map<K, W>)
      requires a.Keys == b.Keys
      ensures |a| == |b|
    {
      assert |a| == |a.Keys| && |b| == |b.Keys|;
    }

    /** The first look, before the snapshot is loaded. */
    method LookUp(name: Name, ghost s: State, ghost c: Sock) returns (r: Found)
      requires Mirrors(s) && LoadEnabled(s, LoadStep.Lookup(c)) && s.conns[c].admission == LookingUp(name)
      modifies if name in rooms then {rooms[name]} else {}
      ensures Settled(Looked(s, c), c, name, r)
    {
      hide Looked, LoadEnabled, SameRooms, Apart, FindsOrFails, Reserve;
      FirstLook(s, c, name);
      SameSize(rooms, s.registry);
      r := Find(name, s);
      if !r.Missing? { FoundSettles(s, Looked(s, c), c, name, r); }
    }

    /** The second look, once the snapshot is loaded: a concurrent loader's room wins, otherwise a new one is
    registered. */
    method Install(name: Name, snapshot: set<Update>, ghost s: State, ghost c: Sock, ghost newId: RoomId)
      returns (r: Found)
      requires Mirrors(s) && LoadEnabled(s, LoadStep.Install(c, newId)) &&
               s.conns[c].admission == Loaded(name, snapshot)
      modifies this, if name in rooms then {rooms[name]} else {}
      ensures Settled(Installed(s, c, newId), c, name, r) && !r.Missing?
      ensures name !in old(rooms) && r.Joined? ==> fresh(r.room) && r.room.name == name && r.room.doc == snapshot
    {
      hide Installed, LoadEnabled, SameRooms, Apart, FindsOrFails, NewRoom, Reserve;
      SecondLook(s, c, newId, name, snapshot);
      SameSize(rooms, s.registry);
      r := Find(name, s);
      if r.Missing? {
        var room := Add(name, snapshot, s.registry, s.rooms, newId);
        return Joined(room);
      }
      FoundSettles(s, Installed(s, c, newId), c, name, r);
    }

    /** A new room is registered. */
    method Add(name: Name, snapshot: set<Update>, ghost registry: map<Name, RoomId>, ghost values: map<RoomId, Room>,
               ghost newId: RoomId)
      returns (room: RoomObject)
      requires SameRegistry(registry) && SameRooms(values) && Apart() && newId !in values && name !in registry
      modifies this
      ensures SameRegistry(registry[name := newId]) && SameRooms(values[newId := NewRoom(name, snapshot)]) && Apart()
      ensures newId in ids && ids[newId] == room
      ensures fresh(room) && room.name == name && room.doc == snapshot
    {
      room := new RoomObject(name, snapshot);
      rooms, ids := rooms[name := room], ids[newId := room];
    }

    /** After the flush the emptiness is looked at again, in the same section as the removal. */
    method Forget(name: Name, r: RoomObject, ghost s: State, ghost t: TaskId)
      requires Mirrors(s) && DepartureEnabled(s, DepartureStep.Forget(t)) && s.tasks[t].room in ids &&
               ids[s.tasks[t].room] == r
      requires name == r.name
      modifies this
      ensures Mirrors(Forgotten(s, t))
    {
      hide Forgotten, DepartureEnabled;
      ForgetsOrKeeps(s, t);
      if r.sockets == {} && r.pending == 0 && name in rooms && rooms[name] == r {
        rooms := rooms - {name};
      }
    }
  }
}
