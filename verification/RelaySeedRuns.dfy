/** Two runs that leave a still-empty room with nobody in it who may seed it. */
module RelaySeedRuns {
  import opened Wrappers
  import opened Relay
  import opened RelayMembership
  import opened RelaySeeding

  // ---- Building runs ----

  ghost predicate Leads(s: State, steps: seq<Step>, s': State) {
    CanRun(s, steps) && Run(s, steps) == s'
  }

  lemma {:induction false} LeadsOn(s: State, a: seq<Step>, s1: State, b: seq<Step>, s2: State)
    requires Leads(s, a, s1) && Leads(s1, b, s2)
    ensures Leads(s, a + b, s2)
    decreases |a|
  {
    if a == [] {
      assert a + b == b;
    } else {
      assert (a + b)[0] == a[0] && (a + b)[1..] == a[1..] + b;
      LeadsOn(Next(s, a[0]), a[1..], s1, b, s2);
    }
  }

  lemma LeadsOne(s: State, a: Step, s1: State)
    requires Enabled(s, a) && Next(s, a) == s1
    ensures Leads(s, [a], s1)
  {
    assert [a][1..] == [];
    assert Leads(s1, [], s1);
  }

  lemma LeadsTwo(s: State, a: Step, s1: State, b: Step, s2: State)
    requires Enabled(s, a) && Next(s, a) == s1 && Enabled(s1, b) && Next(s1, b) == s2
    ensures Leads(s, [a, b], s2)
  {
    assert [a, b][1..] == [b];
    LeadsOne(s1, b, s2);
  }

  lemma LeadsThree(s: State, a: Step, s1: State, b: Step, s2: State, c: Step, s3: State)
    requires Enabled(s, a) && Next(s, a) == s1 && Enabled(s1, b) && Next(s1, b) == s2
    requires Enabled(s2, c) && Next(s2, c) == s3
    ensures Leads(s, [a, b, c], s3)
  {
    LeadsTwo(s1, b, s2, c, s3);
    assert [a, b, c][1..] == [b, c];
  }

  // ---- One room and its connections ----

  const NEW_CONN := Conn(Pending, true, false, None, false, [], Idle, None, {}, {})

  const ROOM := NewRoom("d", {})

  function World(room: Room, conns: map<Sock, Conn>): State {
    State(map["d" := 7], map[7 := room], conns, map[], map[], map[])
  }

  /** A connection that is registered and has passed its open check. */
  function Joined(canWrite: bool): Conn {
    NEW_CONN.(room := Some(7), canWrite := canWrite, admission := CheckedOpen(7))
  }

  function Left(k: Conn): Conn { k.(isOpen := false, closeFired := true, phase := Closed) }

  function Past(k: Conn): Conn { k.(admission := Decided(7, {}), encoded := Some({})) }

  // ---- The parts of a run ----

  const CREATES :=
    [OfSocket(Accept(0)), OfLoad(Begin(0, "d")), OfLoad(Lookup(0))] + [OfLoad(Load(0)), OfLoad(Install(0, 7))]

  function Joins(c: Sock, canWrite: bool): seq<Step> {
    [OfAdmission(Publish(c, canWrite)), OfAdmission(Register(c)), OfAdmission(CheckOpen(c, 0))]
  }

  function Arrives(c: Sock, canWrite: bool): seq<Step> {
    [OfSocket(Accept(c)), OfLoad(Begin(c, "d")), OfLoad(Lookup(c))] + Joins(c, canWrite)
  }

  function Leaves(c: Sock, heir: Sock): seq<Step> {
    [OfSocket(SocketCloses(c)), OfSocket(OnClose(c, 0)), OfDeparture(Drop(0, heir))]
  }

  function Decides(c: Sock): seq<Step> { [OfAdmission(Decide(c))] }

  lemma JoinsLeads(room: Room, conns: map<Sock, Conn>, c: Sock, canWrite: bool)
    requires c in conns && conns[c] == NEW_CONN.(admission := Reserved(7))
    ensures Leads(World(room, conns), Joins(c, canWrite), World(Join(room, c), conns[c := Joined(canWrite)]))
  {
    var s, steps := World(room, conns), Joins(c, canWrite);
    var s1 := Next(s, steps[0]);
    var s2 := Next(s1, steps[1]);
    assert s2.rooms == map[7 := Join(room, c)];
    var s3 := Next(s2, steps[2]);
    assert s3.conns == conns[c := Joined(canWrite)];
    LeadsThree(s, steps[0], s1, steps[1], s2, steps[2], s3);
  }

  lemma CreatesLeads()
    ensures Leads(Init(map[]), CREATES, World(ROOM, map[0 := NEW_CONN.(admission := Reserved(7))]))
  {
    var s := Init(map[]);
    var s1 := Next(s, OfSocket(Accept(0)));
    var s2 := Next(s1, OfLoad(Begin(0, "d")));
    var s3 := Next(s2, OfLoad(Lookup(0)));
    LeadsThree(s, OfSocket(Accept(0)), s1, OfLoad(Begin(0, "d")), s2, OfLoad(Lookup(0)), s3);
    assert s3.conns == map[0 := NEW_CONN.(admission := Loading("d"))];
    LoadsLeads(s3);
    LeadsOn(s, CREATES[..3], s3, CREATES[3..], World(ROOM, map[0 := NEW_CONN.(admission := Reserved(7))]));
  }

  lemma LoadsLeads(s: State)
    requires s == Init(map[]).(conns := map[0 := NEW_CONN.(admission := Loading("d"))])
    ensures Leads(s, [OfLoad(Load(0)), OfLoad(Install(0, 7))],
                  World(ROOM, map[0 := NEW_CONN.(admission := Reserved(7))]))
  {
    var s1 := Next(s, OfLoad(Load(0)));
    var s2 := Next(s1, OfLoad(Install(0, 7)));
    assert s2.conns == map[0 := NEW_CONN.(admission := Reserved(7))];
    LeadsTwo(s, OfLoad(Load(0)), s1, OfLoad(Install(0, 7)), s2);
  }

  lemma LooksLeads(room: Room, conns: map<Sock, Conn>, c: Sock)
    requires c !in conns
    ensures Leads(World(room, conns), [OfSocket(Accept(c)), OfLoad(Begin(c, "d")), OfLoad(Lookup(c))],
                  World(Reserve(room), conns[c := NEW_CONN.(admission := Reserved(7))]))
  {
    var s := World(room, conns);
    var s1 := Next(s, OfSocket(Accept(c)));
    var s2 := Next(s1, OfLoad(Begin(c, "d")));
    var s3 := Next(s2, OfLoad(Lookup(c)));
    assert s3.rooms == map[7 := Reserve(room)];
    assert s3.conns == conns[c := NEW_CONN.(admission := Reserved(7))];
    LeadsThree(s, OfSocket(Accept(c)), s1, OfLoad(Begin(c, "d")), s2, OfLoad(Lookup(c)), s3);
  }

  lemma ArrivesLeads(room: Room, conns: map<Sock, Conn>, c: Sock, canWrite: bool)
    requires c !in conns
    ensures Leads(World(room, conns), Arrives(c, canWrite),
                  World(room.(sockets := room.sockets + {c}), conns[c := Joined(canWrite)]))
  {
    LooksLeads(room, conns, c);
    var known := conns[c := NEW_CONN.(admission := Reserved(7))];
    JoinsLeads(Reserve(room), known, c, canWrite);
    assert known[c := Joined(canWrite)] == conns[c := Joined(canWrite)];
    LeadsOn(World(room, conns), Arrives(c, canWrite)[..3], World(Reserve(room), known), Joins(c, canWrite),
            World(room.(sockets := room.sockets + {c}), conns[c := Joined(canWrite)]));
  }

  lemma DecidesLeads(room: Room, conns: map<Sock, Conn>, c: Sock)
    requires c in conns && conns[c].admission == CheckedOpen(7) && room.doc == {}
    ensures Leads(World(room, conns), Decides(c), World(DecideSeed(room, c), conns[c := Past(conns[c])]))
  {
    LeadsOne(World(room, conns), OfAdmission(Decide(c)), World(DecideSeed(room, c), conns[c := Past(conns[c])]));
  }

  lemma LeavesLeads(room: Room, conns: map<Sock, Conn>, c: Sock, heir: Sock)
    requires c in conns && !conns[c].closeFired && conns[c].room == Some(7)
    requires heir in room.sockets - {c}
    ensures Leads(World(room, conns), Leaves(c, heir), World(Leave(room, c, heir), conns[c := Left(conns[c])]))
  {
    var s, steps := World(room, conns), Leaves(c, heir);
    var s1 := Next(s, steps[0]);
    var s2 := Next(s1, steps[1]);
    assert s2.conns == conns[c := Left(conns[c])] && s2.tasks == map[0 := Dropping(c, 7)];
    var s3 := Next(s2, steps[2]);
    assert s3.rooms == map[7 := Leave(room, c, heir)] && s3.tasks == map[];
    LeadsThree(s, steps[0], s1, steps[1], s2, steps[2], s3);
  }

  const ONE_IN := World(ROOM.(pending := 0, sockets := {0}), map[0 := Joined(true)])

  /** A writer is admitted as the room's first connection. */
  lemma FirstArrives()
    ensures Leads(Init(map[]), CREATES + Joins(0, true), ONE_IN)
  {
    CreatesLeads();
    var conns := map[0 := NEW_CONN.(admission := Reserved(7))];
    JoinsLeads(ROOM, conns, 0, true);
    assert conns[0 := Joined(true)] == map[0 := Joined(true)];
    assert Join(ROOM, 0) == ROOM.(pending := 0, sockets := {0});
    LeadsOn(Init(map[]), CREATES, World(ROOM, conns), Joins(0, true), ONE_IN);
  }

  // ---- A late grant ----

  /** Connection 0 is dropped between its open check and its seed decision while connection 1 is already in the room. */
  const LOSING_RUN := CREATES + Joins(0, true) + Arrives(1, true) + Leaves(0, 1) + (Decides(0) + Decides(1))

  const LOST_WORLD := World(
    ROOM.(pending := 0, sockets := {1}, seeder := Some(0), granted := {0}),
    map[0 := Past(Left(Joined(true))), 1 := Past(Joined(true))])

  const TWO_IN := World(ROOM.(pending := 0, sockets := {0, 1}), map[0 := Joined(true), 1 := Joined(true)])
  const ONE_LEFT := World(ROOM.(pending := 0, sockets := {1}), map[0 := Left(Joined(true)), 1 := Joined(true)])

  lemma SecondArrives()
    ensures Leads(ONE_IN, Arrives(1, true), TWO_IN)
  {
    ArrivesLeads(ONE_IN.rooms[7], ONE_IN.conns, 1, true);
    assert {0} + {1} == {0, 1} && map[0 := Joined(true)][1 := Joined(true)] == TWO_IN.conns;
  }

  lemma FirstLeaves()
    ensures Leads(TWO_IN, Leaves(0, 1), ONE_LEFT)
  {
    hide Leads, Enabled, DeltaOf;
    LeavesLeads(TWO_IN.rooms[7], TWO_IN.conns, 0, 1);
    assert {0, 1} - {0} == {1} && TWO_IN.conns[0 := Left(Joined(true))] == ONE_LEFT.conns;
  }

  lemma LosingRunLeads()
    ensures Leads(Init(map[]), LOSING_RUN, LOST_WORLD)
  {
    hide Leads;
    FirstArrives();
    SecondArrives();
    LeadsOn(Init(map[]), CREATES + Joins(0, true), ONE_IN, Arrives(1, true), TWO_IN);
    FirstLeaves();
    LeadsOn(Init(map[]), CREATES + Joins(0, true) + Arrives(1, true), TWO_IN, Leaves(0, 1), ONE_LEFT);
    LosingDecisions();
    LeadsOn(Init(map[]), CREATES + Joins(0, true) + Arrives(1, true) + Leaves(0, 1), ONE_LEFT, Decides(0) + Decides(1),
            LOST_WORLD);
  }

  lemma LosingDecisions()
    ensures Leads(ONE_LEFT, Decides(0) + Decides(1), LOST_WORLD)
  {
    var w := ONE_LEFT;
    DecidesLeads(w.rooms[7], w.conns, 0);
    var room := DecideSeed(w.rooms[7], 0);
    var conns := w.conns[0 := Past(w.conns[0])];
    assert room.granted == {0};
    DecidesLeads(room, conns, 1);
    assert conns[1 := Past(conns[1])] == LOST_WORLD.conns;
    LeadsOn(w, Decides(0), World(room, conns), Decides(1), LOST_WORLD);
  }

  /** The seed can be lost: after this run connection 1 is registered, open and past its seed decision in a room
  whose document is empty, yet no registered connection has ever been granted the seed. */
  lemma SeedCanBeLost()
    ensures CanRun(Init(map[]), LOSING_RUN)
    ensures var s := Run(Init(map[]), LOSING_RUN);
            && SeedLost(s, 7) && Live(s, 7)
            && s.rooms[7].sockets == {1} && 1 in s.conns && s.conns[1].isOpen && s.conns[1].encoded.Some?
            && s.rooms[7].sockets !! s.rooms[7].granted
  {
    LosingRunLeads();
  }

  // ---- A grant to a viewer ----

  /** A writer is granted the seed, a viewer and another writer join, and the first writer leaves: the map iteration may
  make the viewer its heir. */
  const VIEWER_RUN := CREATES + Joins(0, true) + (Decides(0) + Arrives(1, false)) +
                      (Decides(1) + Arrives(2, true)) + (Decides(2) + Leaves(0, 1))

  const VIEWER_WORLD := World(
    ROOM.(pending := 0, sockets := {1, 2}, seeder := Some(1), granted := {0, 1}),
    map[0 := Left(Past(Joined(true))), 1 := Past(Joined(false)), 2 := Past(Joined(true))])

  lemma DecidesThenArrives(room: Room, conns: map<Sock, Conn>, c: Sock, next: Sock, canWrite: bool)
    requires c in conns && conns[c].admission == CheckedOpen(7) && room.doc == {} && next !in conns
    ensures var seeded := DecideSeed(room, c);
            Leads(World(room, conns), Decides(c) + Arrives(next, canWrite),
                  World(seeded.(sockets := seeded.sockets + {next}),
                        conns[c := Past(conns[c])][next := Joined(canWrite)]))
  {
    DecidesLeads(room, conns, c);
    var seeded := DecideSeed(room, c);
    var decided := conns[c := Past(conns[c])];
    ArrivesLeads(seeded, decided, next, canWrite);
    LeadsOn(World(room, conns), Decides(c), World(seeded, decided), Arrives(next, canWrite),
            World(seeded.(sockets := seeded.sockets + {next}), decided[next := Joined(canWrite)]));
  }

  const VIEWER_IN := World(
    ROOM.(pending := 0, sockets := {0, 1}, seeder := Some(0), granted := {0}),
    map[0 := Past(Joined(true)), 1 := Joined(false)])

  const THREE_IN := World(
    ROOM.(pending := 0, sockets := {0, 1, 2}, seeder := Some(0), granted := {0}),
    map[0 := Past(Joined(true)), 1 := Past(Joined(false)), 2 := Joined(true)])

  lemma ViewerArrives()
    ensures Leads(ONE_IN, Decides(0) + Arrives(1, false), VIEWER_IN)
  {
    DecidesThenArrives(ONE_IN.rooms[7], ONE_IN.conns, 0, 1, false);
    assert DecideSeed(ONE_IN.rooms[7], 0).granted == {0} && {0} + {1} == {0, 1};
    assert ONE_IN.conns[0 := Past(Joined(true))][1 := Joined(false)] == VIEWER_IN.conns;
  }

  lemma WriterArrives()
    ensures Leads(VIEWER_IN, Decides(1) + Arrives(2, true), THREE_IN)
  {
    DecidesThenArrives(VIEWER_IN.rooms[7], VIEWER_IN.conns, 1, 2, true);
    assert {0, 1} + {2} == {0, 1, 2};
    assert VIEWER_IN.conns[1 := Past(Joined(false))][2 := Joined(true)] == THREE_IN.conns;
  }

  lemma ViewerInherits()
    ensures Leads(THREE_IN, Decides(2) + Leaves(0, 1), VIEWER_WORLD)
  {
    hide Leads, Enabled, DeltaOf;
    var room := THREE_IN.rooms[7];
    DecidesLeads(room, THREE_IN.conns, 2);
    var conns := THREE_IN.conns[2 := Past(Joined(true))];
    LeavesLeads(room, conns, 0, 1);
    assert {0, 1, 2} - {0} == {1, 2} && {0} + {1} == {0, 1};
    assert conns[0 := Left(conns[0])] == VIEWER_WORLD.conns;
    LeadsOn(THREE_IN, Decides(2), World(room, conns), Leaves(0, 1), VIEWER_WORLD);
  }

  lemma ViewerRunLeads()
    ensures Leads(Init(map[]), VIEWER_RUN, VIEWER_WORLD)
  {
    hide Leads;
    FirstArrives();
    ViewerArrives();
    LeadsOn(Init(map[]), CREATES + Joins(0, true), ONE_IN, Decides(0) + Arrives(1, false), VIEWER_IN);
    WriterArrives();
    LeadsOn(Init(map[]), CREATES + Joins(0, true) + (Decides(0) + Arrives(1, false)), VIEWER_IN,
            Decides(1) + Arrives(2, true), THREE_IN);
    ViewerInherits();
    LeadsOn(Init(map[]), CREATES + Joins(0, true) + (Decides(0) + Arrives(1, false)) + (Decides(1) + Arrives(2, true)),
            THREE_IN,
            Decides(2) + Leaves(0, 1), VIEWER_WORLD);
  }

  /** Without any late grant, the seed of an empty room can be a viewer's while a writer is registered, open and past
  its seed decision. */
  lemma ViewerCanHoldSeed()
    ensures CanRun(Init(map[]), VIEWER_RUN)
    ensures var s := Run(Init(map[]), VIEWER_RUN);
            && ViewerHolds(s, 7) && Live(s, 7) && SeedersPresent(s)
            && 2 in s.rooms[7].sockets && Writer(s, 2) && s.conns[2].isOpen && s.conns[2].encoded.Some?
  {
    ViewerRunLeads();
  }
}
