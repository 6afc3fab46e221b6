/** The seed grant of a still-empty room: exclusive, never unset while somebody relies on it, and with a registered
writer exactly as long as it goes neither to a connection that has left nor to a viewer. */
module RelaySeeding {
  import opened Wrappers
  import opened Relay
  import opened RelayMembership

  ghost predicate SeedOk(conns: map<Sock, Conn>, room: Room)
    requires room.sockets <= conns.Keys
  {
    (room.seeder.Some? ==> room.seeder.value in room.granted) &&
    (room.doc == {} ==>
      && (forall c :: c in room.sockets && c in room.granted ==> room.seeder == Some(c))
      && (forall c :: c in room.sockets && conns[c].encoded.Some? ==> room.seeder.Some?))
  }

  ghost predicate Seeding(s: State) {
    forall r :: r in s.rooms ==> s.rooms[r].sockets <= s.conns.Keys && SeedOk(s.conns, s.rooms[r])
  }

  /** A change leaves the seed of every room alone, or changes one room soundly. */
  ghost predicate SeedDelta(s: State, d: Delta) {
    var s' := Commit(s, d);
    && !d.conn.Remove? && !d.room.Remove?
    && (d.room.Put? ==> d.room.value.sockets <= s'.conns.Keys && SeedOk(s'.conns, d.room.value))
    && (d.conn.Put? && d.conn.value.encoded.Some? ==>
          || (d.conn.key in s.conns && s.conns[d.conn.key].encoded.Some?)
          || (d.room.Put? && d.conn.value.room == Some(d.room.key)))
  }

  lemma SeedDeltaKeeps(s: State, d: Delta)
    requires WellFormed(s) && WellFormed(Commit(s, d)) && Seeding(s) && SeedDelta(s, d)
    ensures Seeding(Commit(s, d))
  {
    var s' := Commit(s, d);
    forall r | r in s'.rooms
      ensures s'.rooms[r].sockets <= s'.conns.Keys && SeedOk(s'.conns, s'.rooms[r])
    {
      if d.room.Keep? || d.room.key != r {
        assert RoomOk(s'.conns, r, s'.rooms[r]);
        assert forall c :: c in s'.rooms[r].sockets ==> c in Members(s'.rooms[r]);
        assert SeedOk(s.conns, s.rooms[r]);
      }
    }
  }

  lemma LoadShapedSeed(s: State, d: Delta)
    requires Membership(s) && Seeding(s) && LoadShaped(s, d)
    ensures SeedDelta(s, d)
  {
    if d.room.Put? && d.room.key in s.rooms { assert SeedOk(s.conns, s.rooms[d.room.key]); }
  }

  lemma RegisterSeed(s: State, step: AdmissionStep)
    requires Membership(s) && Seeding(s) && AdmissionEnabled(s, step) && step.Register?
    ensures SeedDelta(s, AdmissionDelta(s, step))
  {
    var c := step.c;
    var r := s.conns[c].admission.room;
    assert ConnOk(s.rooms, s.conns[c]);
    assert RoomOk(s.conns, r, s.rooms[r]);
    assert c !in Members(s.rooms[r]);
  }

  lemma AdmissionSeed(s: State, step: AdmissionStep)
    requires Membership(s) && Seeding(s) && AdmissionEnabled(s, step)
    ensures SeedDelta(s, AdmissionDelta(s, step))
  {
    assert ConnOk(s.rooms, s.conns[step.c]);
    if step.Register? { RegisterSeed(s, step); }
  }

  lemma LeaveSeed(conns: map<Sock, Conn>, room: Room, c: Sock, heir: Sock)
    requires room.sockets <= conns.Keys && SeedOk(conns, room)
    requires room.sockets - {c} != {} ==> heir in room.sockets - {c}
    ensures SeedOk(conns, Leave(room, c, heir))
  {
  }

  lemma DepartureSeed(s: State, step: DepartureStep)
    requires Membership(s) && Seeding(s) && DepartureEnabled(s, step)
    ensures SeedDelta(s, DepartureDelta(s, step))
  {
    var task := s.tasks[step.t];
    if step.Drop? { LeaveSeed(s.conns, s.rooms[task.room], task.sock, step.heir); }
  }

  lemma HandlerSeed(s: State, step: HandlerStep)
    requires Membership(s) && Seeding(s) && HandlerEnabled(s, step)
    ensures SeedDelta(s, HandlerDelta(s, step))
  {
  }

  lemma StepSeed(s: State, step: Step)
    requires Membership(s) && Seeding(s) && Enabled(s, step)
    ensures SeedDelta(s, DeltaOf(s, step))
  {
    hide LoadEnabled, AdmissionEnabled, DepartureEnabled, HandlerEnabled;
    hide LoadDelta, AdmissionDelta, DepartureDelta, HandlerDelta;
    match step
    case OfLoad(x) =>
      LoadShape(s, x);
      LoadShapedSeed(s, LoadDelta(s, x));
    case OfAdmission(x) => AdmissionSeed(s, x);
    case OfDeparture(x) => DepartureSeed(s, x);
    case OfHandler(x) => HandlerSeed(s, x);
    case _ =>
  }

  lemma {:induction false} SeedingRun(s: State, steps: seq<Step>)
    requires Membership(s) && Seeding(s) && CanRun(s, steps)
    ensures Membership(Run(s, steps)) && Seeding(Run(s, steps))
    decreases |steps|
  {
    if steps != [] {
      MembershipStep(s, steps[0]);
      StepSeed(s, steps[0]);
      SeedDeltaKeeps(s, DeltaOf(s, steps[0]));
      SeedingRun(Next(s, steps[0]), steps[1..]);
    }
  }

  /** While a room's document is empty at most one registered socket has been granted the seed, and as soon as a
  registered connection has passed its seed decision the grant is out. */
  lemma SeedExclusiveAndOut(store: map<Name, set<Update>>, steps: seq<Step>, r: RoomId)
    requires CanRun(Init(store), steps) && r in Run(Init(store), steps).rooms
    requires Run(Init(store), steps).rooms[r].doc == {}
    ensures var room := Run(Init(store), steps).rooms[r];
            forall a, b :: a in room.sockets && a in room.granted && b in room.sockets && b in room.granted ==> a == b
    ensures var s := Run(Init(store), steps);
            forall c :: c in s.rooms[r].sockets && c in s.conns && s.conns[c].encoded.Some? ==>
              s.rooms[r].seeder.Some?
  {
    SeedingRun(Init(store), steps);
    assert SeedOk(Run(Init(store), steps).conns, Run(Init(store), steps).rooms[r]);
  }

  // ---- Is the one allowed to seed still there? ----

  /** What the room's comment promises of `seeder`: it is a live connection while the room is empty. */
  predicate SeederPresent(room: Room) {
    room.doc == {} && room.seeder.Some? ==> room.seeder.value in room.sockets
  }

  ghost predicate SeedersPresent(s: State) {
    forall r :: r in s.rooms ==> SeederPresent(s.rooms[r])
  }

  /** A connection whose departure has already been carried out wins the seed decision. */
  predicate LateGrant(s: State, step: Step)
    requires Enabled(s, step)
  {
    step.OfAdmission? && step.admission.Decide? &&
    var room := s.rooms[s.conns[step.admission.c].admission.room];
    room.doc == {} && room.seeder.None? && step.admission.c !in room.sockets
  }

  lemma DepartureKeepsSeeders(s: State, step: DepartureStep)
    requires SeedersPresent(s) && DepartureEnabled(s, step)
    ensures SeedersPresent(Commit(s, DepartureDelta(s, step)))
  {
    assert SeederPresent(s.rooms[s.tasks[step.t].room]);
  }

  lemma OtherStepsKeepSeeders(s: State, step: Step)
    requires SeedersPresent(s) && Enabled(s, step) && !step.OfAdmission? && !step.OfDeparture?
    ensures SeedersPresent(Next(s, step))
  {
    var d := DeltaOf(s, step);
    assert d.room.Put? ==> SeederPresent(d.room.value);
  }

  lemma AdmissionKeepsSeeders(s: State, step: AdmissionStep)
    requires SeedersPresent(s) && AdmissionEnabled(s, step)
    ensures SeedersPresent(Commit(s, AdmissionDelta(s, step))) <==> !LateGrant(s, OfAdmission(step))
  {
    if LateGrant(s, OfAdmission(step)) {
      assert !SeederPresent(Commit(s, AdmissionDelta(s, step)).rooms[s.conns[step.c].admission.room]);
    }
  }

  /** Exactly a late grant breaks the promise. */
  lemma SeederStaysIffNoLateGrant(s: State, step: Step)
    requires SeedersPresent(s) && Enabled(s, step)
    ensures SeedersPresent(Next(s, step)) <==> !LateGrant(s, step)
  {
    match step
    case OfAdmission(x) => AdmissionKeepsSeeders(s, x);
    case OfDeparture(x) => DepartureKeepsSeeders(s, x);
    case _ => OtherStepsKeepSeeders(s, step);
  }

  ghost predicate NoLateGrants(s: State, steps: seq<Step>)
    requires CanRun(s, steps)
    decreases |steps|
  {
    steps != [] ==> !LateGrant(s, steps[0]) && NoLateGrants(Next(s, steps[0]), steps[1..])
  }

  lemma {:induction false} SeedersStay(s: State, steps: seq<Step>)
    requires SeedersPresent(s) && CanRun(s, steps) && NoLateGrants(s, steps)
    ensures SeedersPresent(Run(s, steps))
    decreases |steps|
  {
    if steps != [] {
      SeederStaysIffNoLateGrant(s, steps[0]);
      SeedersStay(Next(s, steps[0]), steps[1..]);
    }
  }

  // ---- Can the one allowed to seed write? ----

  /** Whoever holds the grant of a still-empty room is a connection whose updates the relay accepts. */
  predicate HolderWrites(conns: map<Sock, Conn>, room: Room) {
    room.doc == {} && room.seeder.Some? ==> room.seeder.value in conns && conns[room.seeder.value].canWrite
  }

  ghost predicate HoldersWrite(s: State) {
    forall r :: r in s.rooms ==> HolderWrites(s.conns, s.rooms[r])
  }

  predicate Writer(s: State, c: Sock) { c in s.conns && s.conns[c].canWrite }

  /** The seed of an empty room is granted, at an admission or a departure, to a connection that may only view. */
  predicate ViewerGrant(s: State, step: Step)
    requires Enabled(s, step)
  {
    match step
    case OfAdmission(Decide(c)) =>
      var room := s.rooms[s.conns[c].admission.room];
      room.doc == {} && room.seeder.None? && !Writer(s, c)
    case OfDeparture(Drop(t, heir)) =>
      var Dropping(c, r) := s.tasks[t];
      s.rooms[r].doc == {} && s.rooms[r].seeder == Some(c) && heir in s.rooms[r].sockets - {c} && !Writer(s, heir)
    case _ => false
  }

  ghost predicate RoleKept(s: State, d: Delta, c: Sock)
    requires c in s.conns
  {
    !d.conn.Remove? && (d.conn.Put? && d.conn.key == c ==> d.conn.value.canWrite == s.conns[c].canWrite)
  }

  lemma SocketRole(s: State, step: SocketStep, c: Sock)
    requires SocketEnabled(s, step) && c in s.conns
    ensures RoleKept(s, SocketDelta(s, step), c)
  {
  }

  lemma LoadRole(s: State, step: LoadStep, c: Sock)
    requires LoadEnabled(s, step) && c in s.conns
    ensures RoleKept(s, LoadDelta(s, step), c)
  {
  }

  lemma AdmissionRole(s: State, step: AdmissionStep, c: Sock)
    requires AdmissionEnabled(s, step) && c in s.conns && !BeforeRegistration(s.conns[c].admission)
    ensures RoleKept(s, AdmissionDelta(s, step), c)
  {
  }

  lemma HandlerRole(s: State, step: HandlerStep, c: Sock)
    requires HandlerEnabled(s, step) && c in s.conns
    ensures RoleKept(s, HandlerDelta(s, step), c)
  {
  }

  lemma StepRole(s: State, step: Step, c: Sock)
    requires Enabled(s, step) && c in s.conns && !BeforeRegistration(s.conns[c].admission)
    ensures RoleKept(s, DeltaOf(s, step), c)
  {
    hide SocketEnabled, LoadEnabled, AdmissionEnabled, HandlerEnabled, RoleKept, BeforeRegistration;
    match step
    case OfSocket(x) => SocketRole(s, x, c);
    case OfLoad(x) => LoadRole(s, x, c);
    case OfAdmission(x) => AdmissionRole(s, x, c);
    case OfHandler(x) => HandlerRole(s, x, c);
    case OfSave(x) => QuietRole(s, SaveDelta(s, x), c);
    case OfDeparture(x) => QuietRole(s, DepartureDelta(s, x), c);
  }

  lemma QuietRole(s: State, d: Delta, c: Sock)
    requires d.conn.Keep? && c in s.conns
    ensures RoleKept(s, d, c)
  {
  }

  /** Roles are settled before the registration. */
  lemma RolesAreSettled(s: State, step: Step, c: Sock)
    requires Enabled(s, step) && c in s.conns && !BeforeRegistration(s.conns[c].admission)
    ensures c in Next(s, step).conns && Next(s, step).conns[c].canWrite == s.conns[c].canWrite
  {
    StepRole(s, step, c);
    hide Enabled, DeltaOf;
  }

  lemma HoldersAreSettled(s: State, r: RoomId)
    requires WellFormed(s) && Seeding(s) && r in s.rooms && s.rooms[r].seeder.Some?
    ensures var c := s.rooms[r].seeder.value; c in s.conns && !BeforeRegistration(s.conns[c].admission)
  {
    assert SeedOk(s.conns, s.rooms[r]) && RoomOk(s.conns, r, s.rooms[r]);
    assert s.rooms[r].seeder.value in Members(s.rooms[r]);
  }

  /** A room's grant stays where it is, or goes to a writer. */
  ghost predicate GrantsWriter(s: State, d: Delta) {
    !d.room.Remove? &&
    (d.room.Put? && d.room.value.doc == {} && d.room.value.seeder.Some? ==>
       || (d.room.key in s.rooms && s.rooms[d.room.key].doc == {} && s.rooms[d.room.key].seeder == d.room.value.seeder)
       || Writer(Commit(s, d), d.room.value.seeder.value))
  }

  lemma LoadGrants(s: State, d: Delta)
    requires LoadShaped(s, d)
    ensures GrantsWriter(s, d)
  {
  }

  lemma AdmissionGrants(s: State, step: AdmissionStep)
    requires AdmissionEnabled(s, step) && !ViewerGrant(s, OfAdmission(step))
    ensures GrantsWriter(s, AdmissionDelta(s, step))
  {
  }

  lemma DepartureGrants(s: State, step: DepartureStep)
    requires DepartureEnabled(s, step) && !ViewerGrant(s, OfDeparture(step))
    ensures GrantsWriter(s, DepartureDelta(s, step))
  {
  }

  lemma HandlerGrants(s: State, step: HandlerStep)
    requires HandlerEnabled(s, step)
    ensures GrantsWriter(s, HandlerDelta(s, step))
  {
  }

  lemma StepGrantsWriter(s: State, step: Step)
    requires WellFormed(s) && Enabled(s, step) && !ViewerGrant(s, step)
    ensures GrantsWriter(s, DeltaOf(s, step))
  {
    hide GrantsWriter, LoadEnabled;
    match step
    case OfSocket(x) => OtherGrants(s, step);
    case OfSave(x) => OtherGrants(s, step);
    case OfLoad(x) =>
      LoadShape(s, x);
      LoadGrants(s, LoadDelta(s, x));
    case OfAdmission(x) => AdmissionGrants(s, x);
    case OfDeparture(x) => DepartureGrants(s, x);
    case OfHandler(x) => HandlerGrants(s, x);
  }

  lemma OtherGrants(s: State, step: Step)
    requires Enabled(s, step) && (step.OfSocket? || step.OfSave?)
    ensures GrantsWriter(s, DeltaOf(s, step))
  {
  }

  lemma HolderKept(s: State, step: Step, r: RoomId)
    requires WellFormed(s) && Seeding(s) && HoldersWrite(s) && Enabled(s, step) && GrantsWriter(s, DeltaOf(s, step))
    requires r in Next(s, step).rooms
    ensures HolderWrites(Next(s, step).conns, Next(s, step).rooms[r])
  {
    hide Enabled, DeltaOf, WellFormed, Seeding;
    var d, room := DeltaOf(s, step), Next(s, step).rooms[r];
    if room.doc == {} && room.seeder.Some? && r in s.rooms && s.rooms[r].doc == {} && s.rooms[r].seeder == room.seeder {
      HoldersAreSettled(s, r);
      assert HolderWrites(s.conns, s.rooms[r]);
      RolesAreSettled(s, step, room.seeder.value);
    }
  }

  lemma ViewerGrantBreaks(s: State, step: Step)
    requires Enabled(s, step) && ViewerGrant(s, step)
    ensures !HoldersWrite(Next(s, step))
  {
    var s' := Next(s, step);
    var r := if step.OfAdmission? then s.conns[step.admission.c].admission.room else s.tasks[step.departure.t].room;
    assert s'.rooms[r].seeder.Some? && s'.rooms[r].doc == {} && !Writer(s', s'.rooms[r].seeder.value);
  }

  /** Exactly a grant to a viewer hands the seed to a connection whose updates are dropped. */
  lemma HoldersWriteIffNoViewerGrant(s: State, step: Step)
    requires WellFormed(s) && Seeding(s) && HoldersWrite(s) && Enabled(s, step)
    ensures HoldersWrite(Next(s, step)) <==> !ViewerGrant(s, step)
  {
    if ViewerGrant(s, step) {
      ViewerGrantBreaks(s, step);
    } else {
      StepGrantsWriter(s, step);
      forall r | r in Next(s, step).rooms ensures HolderWrites(Next(s, step).conns, Next(s, step).rooms[r]) {
        HolderKept(s, step, r);
      }
    }
  }

  // ---- Whole runs ----

  /** No still-empty room waits for a seed from anyone but a registered writer. */
  ghost predicate Seedable(s: State) { SeedersPresent(s) && HoldersWrite(s) }

  predicate BadGrant(s: State, step: Step)
    requires Enabled(s, step)
  {
    LateGrant(s, step) || ViewerGrant(s, step)
  }

  /** The holder stays a registered writer exactly when the step is neither a late grant nor a grant to a viewer. */
  lemma SeedableIffNoBadGrant(s: State, step: Step)
    requires WellFormed(s) && Seeding(s) && Seedable(s) && Enabled(s, step)
    ensures Seedable(Next(s, step)) <==> !BadGrant(s, step)
  {
    SeederStaysIffNoLateGrant(s, step);
    HoldersWriteIffNoViewerGrant(s, step);
  }

  ghost predicate NoBadGrants(s: State, steps: seq<Step>)
    requires CanRun(s, steps)
    decreases |steps|
  {
    steps != [] ==> !BadGrant(s, steps[0]) && NoBadGrants(Next(s, steps[0]), steps[1..])
  }

  ghost predicate SeedableThroughout(s: State, steps: seq<Step>)
    requires CanRun(s, steps)
    decreases |steps|
  {
    Seedable(s) && (steps != [] ==> SeedableThroughout(Next(s, steps[0]), steps[1..]))
  }

  lemma {:induction false} SeedableThroughoutFrom(s: State, steps: seq<Step>)
    requires Membership(s) && Seeding(s) && Seedable(s) && CanRun(s, steps)
    ensures SeedableThroughout(s, steps) <==> NoBadGrants(s, steps)
    ensures NoBadGrants(s, steps) ==> Seedable(Run(s, steps))
    decreases |steps|
  {
    if steps != [] {
      SeedableIffNoBadGrant(s, steps[0]);
      MembershipStep(s, steps[0]);
      StepSeed(s, steps[0]);
      SeedDeltaKeeps(s, DeltaOf(s, steps[0]));
      var s' := Next(s, steps[0]);
      if Seedable(s') { SeedableThroughoutFrom(s', steps[1..]); }
    }
  }

  /** A run keeps every room seedable all along exactly when it makes no late grant and no grant to a viewer. */
  lemma SeedableExactly(store: map<Name, set<Update>>, steps: seq<Step>)
    requires CanRun(Init(store), steps)
    ensures SeedableThroughout(Init(store), steps) <==> NoBadGrants(Init(store), steps)
  {
    SeedableThroughoutFrom(Init(store), steps);
  }

  /** Without such grants no room is left unseedable: once a registered connection has passed its seed decision and the
  document is still empty, a registered connection that can write holds the grant. */
  lemma SomeoneCanSeed(store: map<Name, set<Update>>, steps: seq<Step>, r: RoomId, c: Sock)
    requires CanRun(Init(store), steps) && NoBadGrants(Init(store), steps)
    requires var s := Run(Init(store), steps);
             && r in s.rooms && s.rooms[r].doc == {}
             && c in s.rooms[r].sockets && c in s.conns && s.conns[c].encoded.Some?
    ensures var s := Run(Init(store), steps);
            var room := s.rooms[r];
            && room.seeder.Some? && room.seeder.value in room.sockets && room.seeder.value in room.granted
            && Writer(s, room.seeder.value)
  {
    SeedingRun(Init(store), steps);
    SeedableThroughoutFrom(Init(store), steps);
    var s := Run(Init(store), steps);
    assert SeedOk(s.conns, s.rooms[r]) && SeederPresent(s.rooms[r]) && HolderWrites(s.conns, s.rooms[r]);
  }

  // ---- After a grant to a viewer ----

  /** The seed of an empty room is a viewer's. */
  ghost predicate ViewerHolds(s: State, r: RoomId) {
    r in s.rooms && s.rooms[r].doc == {} && s.rooms[r].seeder.Some? &&
    var c := s.rooms[r].seeder.value;
    c in s.rooms[r].sockets && c in s.conns && !s.conns[c].canWrite
  }

  /** A change to the room is not its holder's departure, and leaves the seed with a registered holder. */
  ghost predicate SeedStays(s: State, d: Delta, r: RoomId)
    requires r in s.rooms
  {
    !d.room.Remove? &&
    (d.room.Put? && d.room.key == r && s.rooms[r].seeder.Some? && s.rooms[r].seeder.value in s.rooms[r].sockets ==>
       d.room.value.seeder == s.rooms[r].seeder && d.room.value.seeder.value in d.room.value.sockets)
  }

  predicate Drops(s: State, step: Step, c: Sock)
    requires Enabled(s, step)
  {
    step.OfDeparture? && step.departure.Drop? && s.tasks[step.departure.t].sock == c
  }

  lemma LoadStays(s: State, d: Delta, r: RoomId)
    requires LoadShaped(s, d) && r in s.rooms
    ensures SeedStays(s, d, r)
  {
  }

  lemma AdmissionStays(s: State, step: AdmissionStep, r: RoomId)
    requires AdmissionEnabled(s, step) && r in s.rooms
    ensures SeedStays(s, AdmissionDelta(s, step), r)
  {
  }

  lemma DepartureStays(s: State, step: DepartureStep, r: RoomId)
    requires DepartureEnabled(s, step) && r in s.rooms && s.rooms[r].seeder.Some?
    requires !Drops(s, OfDeparture(step), s.rooms[r].seeder.value)
    ensures SeedStays(s, DepartureDelta(s, step), r)
  {
  }

  lemma HandlerStays(s: State, step: HandlerStep, r: RoomId)
    requires HandlerEnabled(s, step) && r in s.rooms
    ensures SeedStays(s, HandlerDelta(s, step), r)
  {
  }

  lemma StepStays(s: State, step: Step, r: RoomId)
    requires WellFormed(s) && Enabled(s, step) && r in s.rooms && s.rooms[r].seeder.Some?
    requires !Drops(s, step, s.rooms[r].seeder.value)
    ensures SeedStays(s, DeltaOf(s, step), r)
  {
    match step
    case OfLoad(x) =>
      LoadShape(s, x);
      LoadStays(s, LoadDelta(s, x), r);
    case OfAdmission(x) => AdmissionStays(s, x, r);
    case OfDeparture(x) => DepartureStays(s, x, r);
    case OfHandler(x) => HandlerStays(s, x, r);
    case _ =>
  }

  /** It stays with the viewer until the viewer leaves, or content is written without the grant. */
  lemma ViewerKeepsSeed(s: State, step: Step, r: RoomId)
    requires WellFormed(s) && Seeding(s) && ViewerHolds(s, r) && Enabled(s, step)
    requires !Drops(s, step, s.rooms[r].seeder.value)
    ensures r in Next(s, step).rooms && (Next(s, step).rooms[r].doc == {} ==> ViewerHolds(Next(s, step), r))
  {
    hide Enabled, DeltaOf, WellFormed, Seeding;
    HoldersAreSettled(s, r);
    RolesAreSettled(s, step, s.rooms[r].seeder.value);
    StepStays(s, step, r);
  }

  // ---- After a late grant ----

  /** The seed belongs to a connection that left and whose goroutines are all past their departure. */
  ghost predicate SeedLost(s: State, r: RoomId) {
    r in s.rooms &&
    var room := s.rooms[r];
    && room.doc == {} && room.seeder.Some? && room.seeder.value !in room.sockets
    && var c := room.seeder.value;
    && c in s.conns && s.conns[c].closeFired
    && !BeforeDecision(s.conns[c].admission)
    && forall t :: t in s.tasks && s.tasks[t].Dropping? ==> s.tasks[t].sock != c
  }

  lemma LostUnderSocket(s: State, step: SocketStep, r: RoomId)
    requires SeedLost(s, r) && SocketEnabled(s, step)
    ensures SeedLost(Commit(s, SocketDelta(s, step)), r)
  {
  }

  lemma LostUnderLoad(s: State, d: Delta, r: RoomId)
    requires SeedLost(s, r) && LoadShaped(s, d) && d.conn.key in s.conns && !d.conn.value.admission.Idle?
    requires BeforeDecision(d.conn.value.admission) ==> BeforeDecision(s.conns[d.conn.key].admission)
    ensures SeedLost(Commit(s, d), r)
  {
  }

  lemma LostUnderAdmission(s: State, step: AdmissionStep, r: RoomId)
    requires SeedLost(s, r) && AdmissionEnabled(s, step)
    ensures SeedLost(Commit(s, AdmissionDelta(s, step)), r)
  {
  }

  lemma LostUnderDeparture(s: State, step: DepartureStep, r: RoomId)
    requires SeedLost(s, r) && DepartureEnabled(s, step)
    ensures SeedLost(Commit(s, DepartureDelta(s, step)), r)
  {
  }

  lemma LostUnderHandler(s: State, step: HandlerStep, r: RoomId)
    requires SeedLost(s, r) && HandlerEnabled(s, step)
    ensures var s' := Commit(s, HandlerDelta(s, step));
            SeedLost(s', r) || (r in s'.rooms && s'.rooms[r].doc != {})
  {
  }

  /** A lost seed stays lost: no step hands it on. Only content written without the grant ends the wait. */
  lemma LostSeedStaysLost(s: State, step: Step, r: RoomId)
    requires WellFormed(s) && SeedLost(s, r) && Enabled(s, step)
    ensures SeedLost(Next(s, step), r) || (r in Next(s, step).rooms && Next(s, step).rooms[r].doc != {})
  {
    match step
    case OfSocket(x) => LostUnderSocket(s, x, r);
    case OfLoad(x) =>
      LoadShape(s, x);
      LostUnderLoad(s, LoadDelta(s, x), r);
    case OfAdmission(x) => LostUnderAdmission(s, x, r);
    case OfDeparture(x) => LostUnderDeparture(s, x, r);
    case OfHandler(x) => LostUnderHandler(s, x, r);
    case _ =>
  }
}
