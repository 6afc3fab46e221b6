/** A document never forks: whoever is about to join a room object, or is in it, is in the registry's room. */
module RelayMembership {
  import opened Wrappers
  import opened Relay

  /** The room an admission has its hands on, from the reservation up to the sending of the initial state. */
  function AdmissionRoom(a: Admission): Option<RoomId> {
    match a
    case Reserved(r) => Some(r)
    case Published(r) => Some(r)
    case Registered(r) => Some(r)
    case CheckedOpen(r) => Some(r)
    case Decided(r, _) => Some(r)
    case StateSent(r) => Some(r)
    case _ => None
  }

  /** Between the lookup and the registration. */
  predicate Waiting(a: Admission, r: RoomId) {
    a == Reserved(r) || a == Published(r)
  }

  /** Before the registration of the socket. */
  predicate BeforeRegistration(a: Admission) {
    a.Idle? || a.LookingUp? || a.Loading? || a.Loaded? || a.Reserved? || a.Published?
  }

  predicate BeforeDecision(a: Admission) {
    BeforeRegistration(a) || a.Registered? || a.CheckedOpen?
  }

  ghost function WaitingSet(s: State, r: RoomId): set<Sock> {
    set c | c in s.conns && Waiting(s.conns[c].admission, r)
  }

  ghost predicate ConnOk(rooms: map<RoomId, Room>, k: Conn) {
    && (AdmissionRoom(k.admission).Some? ==> AdmissionRoom(k.admission).value in rooms)
    && (AdmissionRoom(k.admission).Some? && !k.admission.Reserved? ==> k.room == AdmissionRoom(k.admission))
    && (k.room.Some? ==> k.room.value in rooms && (BeforeRegistration(k.admission) ==> k.admission.Published?))
    && (k.phase.Open? || k.admission.Replaying? ==> k.room.Some?)
    && (BeforeDecision(k.admission) ==> k.encoded.None?)
  }

  ghost predicate RoomIs(conns: map<Sock, Conn>, c: Sock, r: RoomId) {
    c in conns && conns[c].room == Some(r)
  }

  ghost predicate TaskOk(s: State, task: Task) {
    && task.room in s.rooms
    && (task.Dropping? ==> RoomIs(s.conns, task.sock, task.room))
    && (task.Arriving? || task.Applied? || task.Gathering? || task.Fanning? ==>
          RoomIs(s.conns, task.author, task.room))
    && (task.Fanning? ==> forall p :: p in task.rest ==> RoomIs(s.conns, p, task.room))
  }

  ghost predicate IsPast(conns: map<Sock, Conn>, c: Sock, r: RoomId) {
    RoomIs(conns, c, r) && !BeforeRegistration(conns[c].admission)
  }

  ghost function Members(room: Room): set<Sock> { room.sockets + room.granted }

  ghost predicate RoomOk(conns: map<Sock, Conn>, r: RoomId, room: Room) {
    forall c :: c in Members(room) ==> IsPast(conns, c, r)
  }

  ghost predicate RegistryOk(s: State) {
    forall n :: n in s.registry ==> s.registry[n] in s.rooms && s.rooms[s.registry[n]].name == n
  }

  ghost predicate WellFormed(s: State) {
    && RegistryOk(s)
    && (forall c :: c in s.conns ==> ConnOk(s.rooms, s.conns[c]))
    && (forall t :: t in s.tasks ==> TaskOk(s, s.tasks[t]))
    && (forall r :: r in s.rooms ==> RoomOk(s.conns, r, s.rooms[r]))
  }

  ghost predicate PendingCounted(s: State) {
    forall r :: r in s.rooms ==> s.rooms[r].pending == |WaitingSet(s, r)|
  }

  /** The room object is the registry's room for its name. */
  ghost predicate Live(s: State, r: RoomId)
    requires r in s.rooms
  {
    LiveIn(s.registry, s.rooms[r].name, r)
  }

  ghost predicate LiveIn(registry: map<Name, RoomId>, n: Name, r: RoomId) {
    n in registry && registry[n] == r
  }

  ghost predicate NoFork(s: State) {
    forall r :: r in s.rooms && !Abandoned(s.rooms[r]) ==> Live(s, r)
  }

  ghost predicate Membership(s: State) {
    WellFormed(s) && PendingCounted(s) && NoFork(s)
  }

  // ---- Well-formedness is kept: each section's change is locally fine, and fine changes compose ----

  ghost predicate ConnGrows(k: Conn, k': Conn) {
    && (k.room.Some? ==> k'.room == k.room)
    && (!BeforeRegistration(k.admission) ==> !BeforeRegistration(k'.admission))
  }

  /** The change itself puts the connection past its registration in the changed room. */
  ghost predicate JoinsBy(d: Delta, c: Sock)
    requires d.room.Put?
  {
    d.conn.Put? && d.conn.key == c && d.conn.value.room == Some(d.room.key) &&
    !BeforeRegistration(d.conn.value.admission)
  }

  ghost predicate FineDelta(s: State, d: Delta) {
    var s' := Commit(s, d);
    && !d.conn.Remove? && !d.room.Remove?
    && (d.conn.Put? ==> (d.conn.key in s.conns ==> ConnGrows(s.conns[d.conn.key], d.conn.value)))
    && (d.conn.Put? ==> ConnOk(s'.rooms, d.conn.value))
    && (d.room.Put? ==> (d.room.key in s.rooms ==> s.rooms[d.room.key].name == d.room.value.name))
    && (d.room.Put? ==> forall c :: c in Members(d.room.value) ==>
          (d.room.key in s.rooms && c in Members(s.rooms[d.room.key])) || JoinsBy(d, c))
    && (d.task.Put? ==> TaskOk(s', d.task.value))
    && (d.registry.Put? ==> d.room.Put? && d.room.key == d.registry.value && d.room.value.name == d.registry.key)
  }

  lemma FineKeepsConns(s: State, d: Delta)
    requires WellFormed(s) && FineDelta(s, d)
    ensures var s' := Commit(s, d); forall c :: c in s'.conns ==> ConnOk(s'.rooms, s'.conns[c])
  {
  }

  lemma FineKeepsTasks(s: State, d: Delta)
    requires WellFormed(s) && FineDelta(s, d)
    ensures var s' := Commit(s, d); forall t :: t in s'.tasks ==> TaskOk(s', s'.tasks[t])
  {
  }

  lemma FineKeepsRooms(s: State, d: Delta)
    requires WellFormed(s) && FineDelta(s, d)
    ensures var s' := Commit(s, d); forall r :: r in s'.rooms ==> RoomOk(s'.conns, r, s'.rooms[r])
  {
  }

  lemma FineKeepsRegistry(s: State, d: Delta)
    requires WellFormed(s) && FineDelta(s, d)
    ensures RegistryOk(Commit(s, d))
  {
  }

  lemma SocketFine(s: State, step: SocketStep)
    requires WellFormed(s) && SocketEnabled(s, step)
    ensures FineDelta(s, SocketDelta(s, step))
  {
  }

  lemma LookupFine(s: State, c: Sock, n: Name, miss: Delta)
    requires WellFormed(s) && c in s.conns
    requires BeforeRegistration(s.conns[c].admission) && s.conns[c].room.None? && !s.conns[c].phase.Open?
    ensures LookupDelta(s, c, n, miss) == miss || FineDelta(s, LookupDelta(s, c, n, miss))
  {
    assert ConnOk(s.rooms, s.conns[c]);
  }

  /** All a load section can do: at most reserve a registered room or install a fresh one. */
  ghost predicate LoadShaped(s: State, d: Delta) {
    && d.task.Keep? && d.store.Keep? && d.written.Keep? && d.conn.Put? && d.conn.key in s.conns
    && d.conn.value == s.conns[d.conn.key].(admission := d.conn.value.admission, phase := d.conn.value.phase)
    && !AdmissionPast(d.conn.value.admission)
    && (d.room.Keep? ||
        (d.room.Put? && d.room.key in s.rooms && d.room.value == Reserve(s.rooms[d.room.key])) ||
        (d.room.Put? && d.room.key !in s.rooms && d.room.value == NewRoom(d.room.value.name, d.room.value.doc)))
  }

  predicate AdmissionPast(a: Admission) {
    a.Published? || a.Registered? || a.CheckedOpen? || a.Decided? || a.StateSent? || a.Replaying?
  }

  lemma LoadShape(s: State, step: LoadStep)
    requires WellFormed(s) && LoadEnabled(s, step)
    ensures LoadShaped(s, LoadDelta(s, step))
  {
  }

  lemma InstallFine(s: State, c: Sock, newId: RoomId)
    requires WellFormed(s) && LoadEnabled(s, Install(c, newId))
    ensures FineDelta(s, LoadDelta(s, Install(c, newId)))
  {
    var k := s.conns[c];
    assert ConnOk(s.rooms, k);
    var Loaded(n, snapshot) := k.admission;
    var miss := NOTHING.(room := Put(newId, NewRoom(n, snapshot)), registry := Put(n, newId),
                         conn := Put(c, k.(admission := Reserved(newId))));
    LookupFine(s, c, n, miss);
  }

  lemma LoadFine(s: State, step: LoadStep)
    requires WellFormed(s) && LoadEnabled(s, step)
    ensures FineDelta(s, LoadDelta(s, step))
  {
    var k := s.conns[step.c];
    assert ConnOk(s.rooms, k);
    match step
    case Lookup(c) =>
      LookupFine(s, c, k.admission.name, NOTHING.(conn := Put(c, k.(admission := Loading(k.admission.name)))));
    case Install(c, newId) => InstallFine(s, c, newId);
    case _ =>
  }

  lemma EarlyAdmissionFine(s: State, step: AdmissionStep)
    requires WellFormed(s) && AdmissionEnabled(s, step)
    requires step.Publish? || step.Register? || step.CheckOpen?
    ensures FineDelta(s, AdmissionDelta(s, step))
  {
    assert ConnOk(s.rooms, s.conns[step.c]);
  }

  lemma DecideAdmissionFine(s: State, step: AdmissionStep)
    requires WellFormed(s) && AdmissionEnabled(s, step)
    requires step.Decide? || step.SendState?
    ensures FineDelta(s, AdmissionDelta(s, step))
  {
    assert ConnOk(s.rooms, s.conns[step.c]);
  }

  lemma LateAdmissionFine(s: State, step: AdmissionStep)
    requires WellFormed(s) && AdmissionEnabled(s, step)
    requires step.GoOpen? || step.Replay?
    ensures FineDelta(s, AdmissionDelta(s, step))
  {
    assert ConnOk(s.rooms, s.conns[step.c]);
  }

  lemma AdmissionFine(s: State, step: AdmissionStep)
    requires WellFormed(s) && AdmissionEnabled(s, step)
    ensures FineDelta(s, AdmissionDelta(s, step))
  {
    if step.Publish? || step.Register? || step.CheckOpen? {
      EarlyAdmissionFine(s, step);
    } else if step.Decide? || step.SendState? {
      DecideAdmissionFine(s, step);
    } else {
      LateAdmissionFine(s, step);
    }
  }

  lemma DepartureFine(s: State, step: DepartureStep)
    requires WellFormed(s) && DepartureEnabled(s, step)
    ensures FineDelta(s, DepartureDelta(s, step))
  {
  }

  lemma HandlerFine(s: State, step: HandlerStep)
    requires WellFormed(s) && HandlerEnabled(s, step)
    ensures FineDelta(s, HandlerDelta(s, step))
  {
    var r := s.tasks[step.t].room;
    assert forall c :: c in s.rooms[r].sockets ==> c in Members(s.rooms[r]);
  }

  lemma StepFine(s: State, step: Step)
    requires WellFormed(s) && Enabled(s, step)
    ensures FineDelta(s, DeltaOf(s, step))
  {
    match step
    case OfSocket(x) => SocketFine(s, x);
    case OfLoad(x) => LoadFine(s, x);
    case OfAdmission(x) => AdmissionFine(s, x);
    case OfSave(x) =>
    case OfDeparture(x) => DepartureFine(s, x);
    case OfHandler(x) => HandlerFine(s, x);
  }

  lemma WellFormedStep(s: State, step: Step)
    requires WellFormed(s) && Enabled(s, step)
    ensures WellFormed(Next(s, step))
  {
    StepFine(s, step);
    var d := DeltaOf(s, step);
    FineKeepsConns(s, d);
    FineKeepsTasks(s, d);
    FineKeepsRooms(s, d);
    FineKeepsRegistry(s, d);
  }

  // ---- `pending` counts the admissions between lookup and registration ----

  function WaitsBefore(s: State, d: Delta, r: RoomId): int {
    if d.conn.Put? && d.conn.key in s.conns && Waiting(s.conns[d.conn.key].admission, r) then 1 else 0
  }

  function WaitsAfter(s: State, d: Delta, r: RoomId): int {
    if d.conn.Put? && Waiting(d.conn.value.admission, r) then 1 else 0
  }

  function PendingAt(rooms: map<RoomId, Room>, r: RoomId): int {
    if r in rooms then rooms[r].pending else 0
  }

  ghost predicate CountsDelta(s: State, d: Delta) {
    var rooms' := Changed(s.rooms, d.room);
    && !d.conn.Remove? && !d.room.Remove?
    && (forall r :: r in rooms' ==>
          PendingAt(rooms', r) - PendingAt(s.rooms, r) == WaitsAfter(s, d, r) - WaitsBefore(s, d, r))
  }

  lemma WaitingSetAfter(s: State, d: Delta, r: RoomId)
    requires !d.conn.Remove?
    ensures WaitingSet(Commit(s, d), r) ==
            if d.conn.Put? && Waiting(d.conn.value.admission, r) then WaitingSet(s, r) + {d.conn.key}
            else if d.conn.Put? then WaitingSet(s, r) - {d.conn.key}
            else WaitingSet(s, r)
  {
  }

  lemma SizeChange<T>(all: set<T>, x: T)
    ensures |all + {x}| - |all| == if x in all then 0 else 1
    ensures |all - {x}| - |all| == if x in all then -1 else 0
  {
    if x in all { assert all + {x} == all; } else { assert all - {x} == all; }
  }

  lemma WaitingSetChange(s: State, d: Delta, r: RoomId)
    requires !d.conn.Remove?
    ensures |WaitingSet(Commit(s, d), r)| - |WaitingSet(s, r)| == WaitsAfter(s, d, r) - WaitsBefore(s, d, r)
  {
    WaitingSetAfter(s, d, r);
    if d.conn.Put? {
      SizeChange(WaitingSet(s, r), d.conn.key);
      assert d.conn.key in WaitingSet(s, r) <==> WaitsBefore(s, d, r) == 1;
    }
  }

  lemma NoneWaitForUnknownRoom(s: State, r: RoomId)
    requires WellFormed(s) && r !in s.rooms
    ensures WaitingSet(s, r) == {}
  {
    assert forall c :: c in s.conns ==> ConnOk(s.rooms, s.conns[c]);
  }

  lemma CountsKeepPending(s: State, d: Delta)
    requires WellFormed(s) && PendingCounted(s) && CountsDelta(s, d)
    ensures PendingCounted(Commit(s, d))
  {
    var s' := Commit(s, d);
    forall r | r in s'.rooms ensures s'.rooms[r].pending == |WaitingSet(s', r)| {
      WaitingSetChange(s, d, r);
      if r !in s.rooms { NoneWaitForUnknownRoom(s, r); }
      assert PendingAt(s'.rooms, r) == s'.rooms[r].pending;
    }
  }

  lemma LookupCounts(s: State, c: Sock, n: Name, miss: Delta)
    requires RegistryOk(s) && c in s.conns && (s.conns[c].admission.LookingUp? || s.conns[c].admission.Loaded?)
    requires n !in s.registry ==> CountsDelta(s, miss)
    ensures CountsDelta(s, LookupDelta(s, c, n, miss))
  {
  }

  lemma InstallCounts(s: State, c: Sock, n: Name, doc: set<Update>, newId: RoomId)
    requires c in s.conns && s.conns[c].admission.Loaded? && newId !in s.rooms
    ensures CountsDelta(s, NOTHING.(room := Put(newId, NewRoom(n, doc)), registry := Put(n, newId),
                                    conn := Put(c, s.conns[c].(admission := Reserved(newId)))))
  {
  }

  lemma LoadCounts(s: State, step: LoadStep)
    requires WellFormed(s) && LoadEnabled(s, step)
    ensures CountsDelta(s, LoadDelta(s, step))
  {
    var k := s.conns[step.c];
    match step
    case Lookup(c) =>
      LookupCounts(s, c, k.admission.name, NOTHING.(conn := Put(c, k.(admission := Loading(k.admission.name)))));
    case Install(c, newId) =>
      var Loaded(n, doc) := k.admission;
      InstallCounts(s, c, n, doc, newId);
      LookupCounts(s, c, n, NOTHING.(room := Put(newId, NewRoom(n, doc)), registry := Put(n, newId),
                                     conn := Put(c, k.(admission := Reserved(newId)))));
    case _ =>
  }

  lemma AdmissionCounts(s: State, step: AdmissionStep)
    requires WellFormed(s) && AdmissionEnabled(s, step)
    ensures CountsDelta(s, AdmissionDelta(s, step))
  {
  }

  /** The other sections neither admit anyone nor touch the count. */
  ghost predicate Countless(s: State, d: Delta) {
    && !d.conn.Remove? && !d.room.Remove?
    && (d.conn.Put? ==> d.conn.key in s.conns ==> d.conn.value.admission == s.conns[d.conn.key].admission)
    && (d.conn.Put? ==> d.conn.key !in s.conns ==> d.conn.value.admission.Idle?)
    && (d.room.Put? ==> d.room.key in s.rooms && d.room.value.pending == s.rooms[d.room.key].pending)
  }

  lemma CountlessCounts(s: State, d: Delta)
    requires Countless(s, d)
    ensures CountsDelta(s, d)
  {
  }

  lemma SocketCountless(s: State, step: SocketStep)
    requires WellFormed(s) && SocketEnabled(s, step)
    ensures Countless(s, SocketDelta(s, step))
  {
  }

  lemma DepartureCountless(s: State, step: DepartureStep)
    requires WellFormed(s) && DepartureEnabled(s, step)
    ensures Countless(s, DepartureDelta(s, step))
  {
  }

  lemma HandlerCountless(s: State, step: HandlerStep)
    requires WellFormed(s) && HandlerEnabled(s, step)
    ensures Countless(s, HandlerDelta(s, step))
  {
  }

  lemma StepCounts(s: State, step: Step)
    requires WellFormed(s) && Enabled(s, step)
    ensures CountsDelta(s, DeltaOf(s, step))
  {
    match step
    case OfLoad(x) => LoadCounts(s, x);
    case OfAdmission(x) => AdmissionCounts(s, x);
    case OfSocket(x) => SocketCountless(s, x); CountlessCounts(s, DeltaOf(s, step));
    case OfSave(x) => CountlessCounts(s, DeltaOf(s, step));
    case OfDeparture(x) => DepartureCountless(s, x); CountlessCounts(s, DeltaOf(s, step));
    case OfHandler(x) => HandlerCountless(s, x); CountlessCounts(s, DeltaOf(s, step));
  }

  // ---- Rooms with members are the registry's ----

  ghost predicate ForkFree(s: State, d: Delta) {
    var s' := Commit(s, d);
    && !d.room.Remove?
    && (d.room.Put? ==> (d.room.key in s.rooms ==> s.rooms[d.room.key].name == d.room.value.name))
    && (d.room.Put? ==> Abandoned(d.room.value) || LiveIn(s'.registry, d.room.value.name, d.room.key))
    && (d.registry.Remove? ==>
          d.room.Keep? && d.registry.key in s.registry &&
          s.registry[d.registry.key] in s.rooms && Abandoned(s.rooms[s.registry[d.registry.key]]))
    && (d.registry.Put? ==> d.registry.key !in s.registry && d.registry.value !in s.rooms)
  }

  lemma ForkFreeKeeps(s: State, d: Delta)
    requires NoFork(s) && ForkFree(s, d)
    ensures NoFork(Commit(s, d))
    ensures forall r :: r in s.rooms && !Live(s, r) ==> r in Commit(s, d).rooms && !Live(Commit(s, d), r)
  {
  }

  lemma LookupForkFree(s: State, c: Sock, n: Name, miss: Delta)
    requires RegistryOk(s) && c in s.conns
    requires n !in s.registry ==> ForkFree(s, miss)
    ensures ForkFree(s, LookupDelta(s, c, n, miss))
  {
  }

  lemma LoadForkFree(s: State, step: LoadStep)
    requires Membership(s) && LoadEnabled(s, step)
    ensures ForkFree(s, LoadDelta(s, step))
  {
    var k := s.conns[step.c];
    match step
    case Lookup(c) =>
      LookupForkFree(s, c, k.admission.name, NOTHING.(conn := Put(c, k.(admission := Loading(k.admission.name)))));
    case Install(c, newId) => InstallForkFree(s, c, k.admission.name, newId);
    case _ =>
  }

  lemma InstallForkFree(s: State, c: Sock, n: Name, newId: RoomId)
    requires Membership(s) && LoadEnabled(s, Install(c, newId)) && n == s.conns[c].admission.name
    ensures ForkFree(s, LoadDelta(s, Install(c, newId)))
  {
    RegistryAvoids(s, newId);
    var Loaded(_, doc) := s.conns[c].admission;
    LookupForkFree(s, c, n, NOTHING.(room := Put(newId, NewRoom(n, doc)), registry := Put(n, newId),
                                     conn := Put(c, s.conns[c].(admission := Reserved(newId)))));
  }

  lemma RegistryAvoids(s: State, newId: RoomId)
    requires RegistryOk(s) && newId !in s.rooms
    ensures forall n :: n in s.registry ==> s.registry[n] != newId
  {
  }

  lemma WaitingRoomIsLive(s: State, c: Sock, r: RoomId)
    requires Membership(s) && c in s.conns && Waiting(s.conns[c].admission, r)
    ensures r in s.rooms && Live(s, r) && s.rooms[r].pending >= 1
  {
    assert ConnOk(s.rooms, s.conns[c]);
    assert c in WaitingSet(s, r);
  }

  lemma AdmissionForkFree(s: State, step: AdmissionStep)
    requires Membership(s) && AdmissionEnabled(s, step)
    ensures ForkFree(s, AdmissionDelta(s, step))
  {
    if step.Register? { WaitingRoomIsLive(s, step.c, s.conns[step.c].admission.room); }
  }

  /** A section that leaves the registry alone and brings no abandoned room back. */
  lemma QuietForkFree(s: State, d: Delta)
    requires NoFork(s) && d.registry.Keep? && !d.room.Remove?
    requires d.room.Put? ==>
               d.room.key in s.rooms && d.room.value.name == s.rooms[d.room.key].name &&
               (Abandoned(s.rooms[d.room.key]) ==> Abandoned(d.room.value))
    ensures ForkFree(s, d)
  {
    if d.room.Put? && !Abandoned(d.room.value) { assert Live(s, d.room.key); }
  }

  lemma DepartureForkFree(s: State, step: DepartureStep)
    requires NoFork(s) && DepartureEnabled(s, step)
    ensures ForkFree(s, DepartureDelta(s, step))
  {
    var r := s.tasks[step.t].room;
    match step
    case Drop(t, heir) => QuietForkFree(s, DepartureDelta(s, step));
    case Disarm(t) => QuietForkFree(s, DepartureDelta(s, step));
    case _ =>
  }

  lemma StepForkFree(s: State, step: Step)
    requires Membership(s) && Enabled(s, step)
    ensures ForkFree(s, DeltaOf(s, step))
  {
    match step
    case OfLoad(x) => LoadForkFree(s, x);
    case OfAdmission(x) => AdmissionForkFree(s, x);
    case OfDeparture(x) => DepartureForkFree(s, x);
    case OfHandler(x) => QuietForkFree(s, HandlerDelta(s, x));
    case _ =>
  }

  lemma MembershipStep(s: State, step: Step)
    requires Membership(s) && Enabled(s, step)
    ensures Membership(Next(s, step))
    ensures forall r :: r in s.rooms && !Live(s, r) ==> r in Next(s, step).rooms && !Live(Next(s, step), r)
  {
    WellFormedStep(s, step);
    StepCounts(s, step);
    CountsKeepPending(s, DeltaOf(s, step));
    StepForkFree(s, step);
    ForkFreeKeeps(s, DeltaOf(s, step));
  }

  lemma {:induction false} MembershipRun(s: State, steps: seq<Step>)
    requires Membership(s) && CanRun(s, steps)
    ensures Membership(Run(s, steps))
    ensures forall r :: r in s.rooms && !Live(s, r) ==> r in Run(s, steps).rooms && !Live(Run(s, steps), r)
    decreases |steps|
  {
    if steps != [] {
      MembershipStep(s, steps[0]);
      MembershipRun(Next(s, steps[0]), steps[1..]);
    }
  }

  // ---- Main results ----

  /** In every reachable state a room object with a pending admission or a registered socket is the registry's
  room for its name, and `pending` is the number of admissions between lookup and registration. */
  lemma NeverForks(store: map<Name, set<Update>>, steps: seq<Step>, r: RoomId)
    requires CanRun(Init(store), steps) && r in Run(Init(store), steps).rooms
    ensures var s := Run(Init(store), steps);
            && s.rooms[r].pending == |WaitingSet(s, r)|
            && (s.rooms[r].pending > 0 || s.rooms[r].sockets != {} ==> Live(s, r))
  {
    MembershipRun(Init(store), steps);
  }

  /** Two connections admitted to the same name are in the same room object. */
  lemma SameNameSameRoom(store: map<Name, set<Update>>, steps: seq<Step>, r1: RoomId, r2: RoomId, c1: Sock, c2: Sock)
    requires CanRun(Init(store), steps)
    requires var s := Run(Init(store), steps);
             && r1 in s.rooms && c1 in s.rooms[r1].sockets
             && r2 in s.rooms && c2 in s.rooms[r2].sockets
             && s.rooms[r1].name == s.rooms[r2].name
    ensures r1 == r2
  {
    NeverForks(store, steps, r1);
    NeverForks(store, steps, r2);
  }

  /** Once forgotten, a room object never gains a member again, however the run goes on. */
  lemma ForgottenForGood(store: map<Name, set<Update>>, steps: seq<Step>, more: seq<Step>, r: RoomId)
    requires CanRun(Init(store), steps) && CanRun(Run(Init(store), steps), more)
    requires r in Run(Init(store), steps).rooms && !Live(Run(Init(store), steps), r)
    ensures var s := Run(Run(Init(store), steps), more);
            r in s.rooms && !Live(s, r) && s.rooms[r].sockets == {} && s.rooms[r].pending == 0
  {
    MembershipRun(Init(store), steps);
    MembershipRun(Run(Init(store), steps), more);
  }

  /** A frame is only ever dispatched to a connection whose room is known. */
  lemma OpenHasRoom(store: map<Name, set<Update>>, steps: seq<Step>, c: Sock)
    requires CanRun(Init(store), steps)
    requires c in Run(Init(store), steps).conns
    requires var k := Run(Init(store), steps).conns[c]; k.phase.Open? || k.admission.Replaying?
    ensures var s := Run(Init(store), steps); s.conns[c].room.Some? && s.conns[c].room.value in s.rooms
  {
    MembershipRun(Init(store), steps);
    var s := Run(Init(store), steps);
    assert ConnOk(s.rooms, s.conns[c]);
  }
}
