/** What was stored is served: whoever is admitted to a room is sent the document stored under its name. */
module RelayStore {
  import opened Wrappers
  import opened Relay
  import opened RelayMembership
  import opened RelayDelivery

  /** Everything that stands for the document of a name holds what the store held for it at first. */
  ghost predicate RoomServes(base: map<Name, set<Update>>, room: Room) {
    && Lookedup(base, room.name) <= room.doc
    && (Lookedup(base, room.name) != {} ==> room.granted == {})
  }

  ghost predicate ConnServes(base: map<Name, set<Update>>, s: State, k: Conn) {
    && (k.admission.Loaded? ==> Lookedup(base, k.admission.name) <= k.admission.snapshot)
    && (k.encoded.Some? && k.room.Some? && k.room.value in s.rooms ==>
          Lookedup(base, s.rooms[k.room.value].name) <= k.encoded.value)
    && (k.admission.Decided? || k.admission.StateSent? || k.admission.Replaying? || k.phase.Open? ==> k.encoded.Some?)
    && (k.phase.Open? ==> !k.admission.Decided?)
  }

  ghost predicate TaskServes(base: map<Name, set<Update>>, s: State, task: Task) {
    task.Saving? && task.room in s.rooms ==> Lookedup(base, s.rooms[task.room].name) <= task.snapshot
  }

  ghost predicate Serves(base: map<Name, set<Update>>, s: State) {
    && (forall r :: r in s.rooms ==> RoomServes(base, s.rooms[r]))
    && (forall n :: Lookedup(base, n) <= Lookedup(s.store, n))
    && (forall c :: c in s.conns ==> ConnServes(base, s, s.conns[c]))
    && (forall t :: t in s.tasks ==> TaskServes(base, s, s.tasks[t]))
  }

  ghost predicate ServingDelta(base: map<Name, set<Update>>, s: State, d: Delta) {
    var s' := Commit(s, d);
    && !d.conn.Remove? && !d.room.Remove? && !d.store.Remove?
    && (d.room.Put? ==> RoomServes(base, d.room.value))
    && (d.room.Put? && d.room.key in s.rooms ==> d.room.value.name == s.rooms[d.room.key].name)
    && (d.store.Put? ==> Lookedup(base, d.store.key) <= d.store.value)
    && (d.conn.Put? ==> ConnServes(base, s', d.conn.value))
    && (d.task.Put? ==> TaskServes(base, s', d.task.value))
  }

  lemma ConnStillServes(base: map<Name, set<Update>>, s: State, d: Delta, k: Conn)
    requires ServingDelta(base, s, d) && ConnOk(s.rooms, k) && ConnServes(base, s, k)
    ensures ConnServes(base, Commit(s, d), k)
  {
  }

  lemma TaskStillServes(base: map<Name, set<Update>>, s: State, d: Delta, task: Task)
    requires ServingDelta(base, s, d) && task.room in s.rooms && TaskServes(base, s, task)
    ensures TaskServes(base, Commit(s, d), task)
  {
  }

  lemma ServingKeeps(base: map<Name, set<Update>>, s: State, d: Delta)
    requires WellFormed(s) && Serves(base, s) && ServingDelta(base, s, d)
    ensures Serves(base, Commit(s, d))
  {
    hide ConnOk, ConnServes, TaskServes, RoomServes;
    var s' := Commit(s, d);
    forall c | c in s'.conns ensures ConnServes(base, s', s'.conns[c]) {
      if d.conn.Keep? || d.conn.key != c { ConnStillServes(base, s, d, s.conns[c]); }
    }
    forall t | t in s'.tasks ensures TaskServes(base, s', s'.tasks[t]) {
      if d.task.Keep? || d.task.key != t {
        assert TaskOk(s, s.tasks[t]);
        TaskStillServes(base, s, d, s.tasks[t]);
      }
    }
  }

  lemma SocketServes(base: map<Name, set<Update>>, s: State, step: SocketStep)
    requires Serves(base, s) && SocketEnabled(s, step)
    ensures ServingDelta(base, s, SocketDelta(s, step))
  {
    if step.c in s.conns { assert ConnServes(base, s, s.conns[step.c]); }
  }

  lemma LookupServes(base: map<Name, set<Update>>, s: State, c: Sock, n: Name, miss: Delta)
    requires WellFormed(s) && Serves(base, s) && c in s.conns && BeforeDecision(s.conns[c].admission)
    requires ServingDelta(base, s, miss)
    ensures ServingDelta(base, s, LookupDelta(s, c, n, miss))
  {
    assert ConnOk(s.rooms, s.conns[c]) && ConnServes(base, s, s.conns[c]);
    if n in s.registry { assert RoomServes(base, s.rooms[s.registry[n]]); }
  }

  lemma LoadServes(base: map<Name, set<Update>>, s: State, step: LoadStep)
    requires WellFormed(s) && Serves(base, s) && LoadEnabled(s, step)
    ensures ServingDelta(base, s, LoadDelta(s, step))
  {
    var c := step.c;
    var k := s.conns[c];
    assert ConnOk(s.rooms, k) && ConnServes(base, s, k);
    match step
    case Lookup(_) =>
      var n := k.admission.name;
      LookupServes(base, s, c, n, NOTHING.(conn := Put(c, k.(admission := Loading(n)))));
    case Install(_, newId) =>
      var Loaded(n, snapshot) := k.admission;
      LookupServes(base, s, c, n, NOTHING.(room := Put(newId, NewRoom(n, snapshot)), registry := Put(n, newId),
                                           conn := Put(c, k.(admission := Reserved(newId)))));
    case _ =>
  }

  lemma AdmissionServes(base: map<Name, set<Update>>, s: State, step: AdmissionStep)
    requires WellFormed(s) && Serves(base, s) && AdmissionEnabled(s, step)
    ensures ServingDelta(base, s, AdmissionDelta(s, step))
  {
    assert ConnOk(s.rooms, s.conns[step.c]) && ConnServes(base, s, s.conns[step.c]);
    if step.Register? || step.Decide? { assert RoomServes(base, s.rooms[s.conns[step.c].admission.room]); }
  }

  lemma DepartureServes(base: map<Name, set<Update>>, s: State, step: DepartureStep)
    requires WellFormed(s) && Serves(base, s) && DepartureEnabled(s, step)
    ensures ServingDelta(base, s, DepartureDelta(s, step))
  {
    assert TaskServes(base, s, s.tasks[step.t]) && RoomServes(base, s.rooms[s.tasks[step.t].room]);
  }

  lemma HandlerServes(base: map<Name, set<Update>>, s: State, step: HandlerStep)
    requires WellFormed(s) && Serves(base, s) && HandlerEnabled(s, step)
    ensures ServingDelta(base, s, HandlerDelta(s, step))
  {
    var task := s.tasks[step.t];
    assert TaskOk(s, task) && RoomServes(base, s.rooms[task.room]);
    if step.Apply? { assert ConnServes(base, s, s.conns[task.author]); }
    if step.Deliver? { assert ConnServes(base, s, s.conns[step.peer]); }
  }

  lemma StepServes(base: map<Name, set<Update>>, s: State, step: Step)
    requires WellFormed(s) && Serves(base, s) && Enabled(s, step)
    ensures Serves(base, Next(s, step))
  {
    match step {
      case OfSocket(x) => SocketServes(base, s, x);
      case OfLoad(x) => LoadServes(base, s, x);
      case OfAdmission(x) => AdmissionServes(base, s, x);
      case OfSave(x) =>
      case OfDeparture(x) => DepartureServes(base, s, x);
      case OfHandler(x) => HandlerServes(base, s, x);
    }
    ServingKeeps(base, s, DeltaOf(s, step));
  }

  lemma {:induction false} ServesRun(base: map<Name, set<Update>>, s: State, steps: seq<Step>)
    requires WellFormed(s) && Serves(base, s) && CanRun(s, steps)
    ensures WellFormed(Run(s, steps)) && Serves(base, Run(s, steps))
    decreases |steps|
  {
    if steps != [] {
      WellFormedStep(s, steps[0]);
      StepServes(base, s, steps[0]);
      ServesRun(base, Next(s, steps[0]), steps[1..]);
    }
  }

  /** In every reachable state every room, every snapshot being loaded or saved, and the store itself hold what the
  store held at first for their name; and where that was something, nobody has ever been told to seed the room. */
  lemma StoredIsKept(store: map<Name, set<Update>>, steps: seq<Step>)
    requires CanRun(Init(store), steps)
    ensures var s := Run(Init(store), steps);
            && (forall r :: r in s.rooms ==> Lookedup(store, s.rooms[r].name) <= s.rooms[r].doc)
            && (forall r :: r in s.rooms && Lookedup(store, s.rooms[r].name) != {} ==> s.rooms[r].granted == {})
            && (forall n :: Lookedup(store, n) <= Lookedup(s.store, n))
            && (forall c :: c in s.conns && s.conns[c].admission.Loaded? ==>
                  Lookedup(store, s.conns[c].admission.name) <= s.conns[c].admission.snapshot)
            && (forall t :: t in s.tasks && s.tasks[t].Saving? && s.tasks[t].room in s.rooms ==>
                  Lookedup(store, s.rooms[s.tasks[t].room].name) <= s.tasks[t].snapshot)
  {
    ServesRun(store, Init(store), steps);
    var s := Run(Init(store), steps);
    forall r | r in s.rooms
      ensures Lookedup(store, s.rooms[r].name) <= s.rooms[r].doc
      ensures Lookedup(store, s.rooms[r].name) != {} ==> s.rooms[r].granted == {}
    {
      assert RoomServes(store, s.rooms[r]);
    }
  }

  /** In every reachable state an open connection is in a room and has been sent what was stored under its name. */
  lemma StoredIsServed(store: map<Name, set<Update>>, steps: seq<Step>, c: Sock)
    requires CanRun(Init(store), steps)
    requires var s := Run(Init(store), steps); c in s.conns && s.conns[c].phase.Open?
    ensures var s := Run(Init(store), steps);
            && s.conns[c].room.Some? && s.conns[c].room.value in s.rooms
            && Lookedup(store, s.rooms[s.conns[c].room.value].name) <= s.conns[c].sent
  {
    ServesRun(store, Init(store), steps);
    StatesOutRun(Init(store), steps);
    var s := Run(Init(store), steps);
    assert ConnOk(s.rooms, s.conns[c]) && ConnServes(store, s, s.conns[c]) && StateOut(s.conns[c]);
  }

  /** In every reachable state an open connection whose socket is open has each update of its room's document, sent to
  it or its own, unless a handler still has to send it there. */
  lemma OpenMissesNothing(store: map<Name, set<Update>>, steps: seq<Step>, r: RoomId, c: Sock, u: Update)
    requires CanRun(Init(store), steps)
    requires var s := Run(Init(store), steps);
             c in s.conns && s.conns[c].phase.Open? && s.conns[c].isOpen && r in s.rooms && c in s.rooms[r].sockets &&
             u in s.rooms[r].doc
    ensures var s := Run(Init(store), steps);
            u in s.conns[c].sent + s.conns[c].authored || exists t :: t in s.tasks && Carries(s.tasks[t], r, c, u)
  {
    ServesRun(store, Init(store), steps);
    StatesOutRun(Init(store), steps);
    var s := Run(Init(store), steps);
    assert ConnServes(store, s, s.conns[c]) && StateOut(s.conns[c]);
    NoUpdateMissed(store, steps, r, c, u);
  }
}
