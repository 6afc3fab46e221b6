/** Updates never cross rooms: whatever a connection is sent was stored under its room's name to begin with, or was
applied by a writer admitted to that name. */
module RelayIsolation {
  import opened Wrappers
  import opened Relay
  import opened RelayMembership

  ghost function WrittenIn(s: State, r: RoomId): set<Update>
    requires r in s.rooms
  {
    Lookedup(s.written, s.rooms[r].name)
  }

  /** The room a connection belongs to, and only its updates, appear in its history. */
  ghost predicate ConnPure(s: State, k: Conn) {
    && (k.room.Some? && k.room.value in s.rooms ==>
          && k.sent <= WrittenIn(s, k.room.value)
          && (k.encoded.Some? ==> k.encoded.value <= WrittenIn(s, k.room.value))
          && (k.admission.Decided? ==> k.admission.state <= WrittenIn(s, k.room.value)))
    && (k.room.None? ==> k.sent == {} && k.authored == {})
    && (k.admission.Loaded? ==> k.admission.snapshot <= Lookedup(s.written, k.admission.name))
    && (k.authored != {} ==> k.canWrite)
  }

  ghost predicate TaskPure(s: State, task: Task) {
    task.room in s.rooms ==>
      && (task.Saving? ==> task.snapshot <= WrittenIn(s, task.room))
      && (task.Applied? || task.Gathering? || task.Fanning? ==> task.updates <= WrittenIn(s, task.room))
  }

  ghost predicate Pure(s: State) {
    && (forall r :: r in s.rooms ==> s.rooms[r].doc <= WrittenIn(s, r))
    && (forall n :: n in s.store ==> s.store[n] <= Lookedup(s.written, n))
    && (forall c :: c in s.conns ==> ConnPure(s, s.conns[c]))
    && (forall t :: t in s.tasks ==> TaskPure(s, s.tasks[t]))
  }

  ghost predicate PureDelta(s: State, d: Delta) {
    var s' := Commit(s, d);
    && !d.conn.Remove? && !d.room.Remove? && !d.written.Remove? && !d.store.Remove?
    && (d.written.Put? ==> Lookedup(s.written, d.written.key) <= d.written.value)
    && (d.room.Put? ==> d.room.value.doc <= Lookedup(s'.written, d.room.value.name))
    && (d.room.Put? && d.room.key in s.rooms ==> d.room.value.name == s.rooms[d.room.key].name)
    && (d.store.Put? ==> d.store.value <= Lookedup(s'.written, d.store.key))
    && (d.conn.Put? ==> ConnPure(s', d.conn.value))
    && (d.task.Put? ==> TaskPure(s', d.task.value))
  }

  lemma WrittenGrows(s: State, d: Delta, r: RoomId)
    requires PureDelta(s, d) && r in s.rooms
    ensures r in Commit(s, d).rooms && WrittenIn(s, r) <= WrittenIn(Commit(s, d), r)
  {
  }

  lemma PureKeepsConn(s: State, d: Delta, k: Conn)
    requires PureDelta(s, d) && ConnPure(s, k) && ConnOk(s.rooms, k)
    ensures ConnPure(Commit(s, d), k)
  {
    if k.room.Some? { WrittenGrows(s, d, k.room.value); }
  }

  lemma PureKeepsTask(s: State, d: Delta, task: Task)
    requires PureDelta(s, d) && TaskPure(s, task) && task.room in s.rooms
    ensures TaskPure(Commit(s, d), task)
  {
    WrittenGrows(s, d, task.room);
  }

  lemma PureDeltaKeeps(s: State, d: Delta)
    requires WellFormed(s) && Pure(s) && PureDelta(s, d)
    ensures Pure(Commit(s, d))
  {
    var s' := Commit(s, d);
    forall c | c in s'.conns ensures ConnPure(s', s'.conns[c]) {
      if d.conn.Keep? || d.conn.key != c {
        assert ConnOk(s.rooms, s.conns[c]);
        PureKeepsConn(s, d, s.conns[c]);
      }
    }
    forall t | t in s'.tasks ensures TaskPure(s', s'.tasks[t]) {
      if d.task.Keep? || d.task.key != t {
        assert TaskOk(s, s.tasks[t]);
        PureKeepsTask(s, d, s.tasks[t]);
      }
    }
    forall r | r in s'.rooms ensures s'.rooms[r].doc <= WrittenIn(s', r) {
      if d.room.Keep? || d.room.key != r { WrittenGrows(s, d, r); }
    }
  }

  lemma SocketPure(s: State, step: SocketStep)
    requires WellFormed(s) && Pure(s) && SocketEnabled(s, step)
    ensures PureDelta(s, SocketDelta(s, step))
  {
  }

  /** A load section keeps the history of the connection and copies only what the store holds for the name. */
  ghost predicate LoadCopies(s: State, d: Delta) {
    && LoadShaped(s, d)
    && (d.conn.value.admission.Loaded? ==>
          d.conn.value.admission.snapshot <= Lookedup(s.written, d.conn.value.admission.name))
    && (d.room.Put? && d.room.key !in s.rooms ==> d.room.value.doc <= Lookedup(s.written, d.room.value.name))
    && s.conns[d.conn.key].room.None?
  }

  lemma LoadCopiesStep(s: State, step: LoadStep)
    requires WellFormed(s) && Pure(s) && LoadEnabled(s, step)
    ensures LoadCopies(s, LoadDelta(s, step))
  {
    LoadShape(s, step);
    assert ConnOk(s.rooms, s.conns[step.c]) && ConnPure(s, s.conns[step.c]);
  }

  lemma LoadPure(s: State, d: Delta)
    requires Pure(s) && LoadCopies(s, d)
    ensures PureDelta(s, d)
  {
    assert ConnPure(s, s.conns[d.conn.key]);
  }

  lemma EarlyAdmissionPure(s: State, step: AdmissionStep)
    requires WellFormed(s) && Pure(s) && AdmissionEnabled(s, step)
    requires step.Publish? || step.Register? || step.CheckOpen?
    ensures PureDelta(s, AdmissionDelta(s, step))
  {
    assert ConnOk(s.rooms, s.conns[step.c]) && ConnPure(s, s.conns[step.c]);
  }

  lemma DecideAdmissionPure(s: State, step: AdmissionStep)
    requires WellFormed(s) && Pure(s) && AdmissionEnabled(s, step)
    requires step.Decide? || step.SendState?
    ensures PureDelta(s, AdmissionDelta(s, step))
  {
    assert ConnOk(s.rooms, s.conns[step.c]) && ConnPure(s, s.conns[step.c]);
  }

  lemma RelabelPure(s: State, c: Sock, k: Conn, task: Change<TaskId, Task>)
    requires Pure(s) && c in s.conns
    requires k == s.conns[c].(phase := k.phase, buffer := k.buffer, admission := k.admission)
    requires !k.admission.Decided? && !k.admission.Loaded?
    requires task.Put? ==> task.value.Arriving? || task.value.Dropping?
    ensures PureDelta(s, NOTHING.(conn := Put(c, k), task := task))
  {
    assert ConnPure(s, s.conns[c]);
  }

  lemma LateAdmissionPure(s: State, step: AdmissionStep)
    requires WellFormed(s) && Pure(s) && AdmissionEnabled(s, step)
    requires step.GoOpen? || step.Replay?
    ensures PureDelta(s, AdmissionDelta(s, step))
  {
    var d := AdmissionDelta(s, step);
    RelabelPure(s, step.c, d.conn.value, d.task);
  }

  lemma AdmissionPure(s: State, step: AdmissionStep)
    requires WellFormed(s) && Pure(s) && AdmissionEnabled(s, step)
    ensures PureDelta(s, AdmissionDelta(s, step))
  {
    if step.Publish? || step.Register? || step.CheckOpen? {
      EarlyAdmissionPure(s, step);
    } else if step.Decide? || step.SendState? {
      DecideAdmissionPure(s, step);
    } else {
      LateAdmissionPure(s, step);
    }
  }

  lemma DeparturePure(s: State, step: DepartureStep)
    requires WellFormed(s) && Pure(s) && DepartureEnabled(s, step)
    ensures PureDelta(s, DepartureDelta(s, step))
  {
    assert TaskPure(s, s.tasks[step.t]);
  }

  lemma ApplyPure(s: State, step: HandlerStep)
    requires WellFormed(s) && Pure(s) && HandlerEnabled(s, step) && step.Apply?
    ensures PureDelta(s, HandlerDelta(s, step))
  {
    var task := s.tasks[step.t];
    assert TaskOk(s, task) && TaskPure(s, task);
    assert RoomIs(s.conns, task.author, task.room) && ConnPure(s, s.conns[task.author]);
  }

  lemma FanOutPure(s: State, step: HandlerStep)
    requires WellFormed(s) && Pure(s) && HandlerEnabled(s, step) && !step.Apply?
    ensures PureDelta(s, HandlerDelta(s, step))
  {
    var task := s.tasks[step.t];
    assert TaskOk(s, task) && TaskPure(s, task);
    if step.Deliver? { assert RoomIs(s.conns, step.peer, task.room) && ConnPure(s, s.conns[step.peer]); }
  }

  lemma HandlerPure(s: State, step: HandlerStep)
    requires WellFormed(s) && Pure(s) && HandlerEnabled(s, step)
    ensures PureDelta(s, HandlerDelta(s, step))
  {
    if step.Apply? { ApplyPure(s, step); } else { FanOutPure(s, step); }
  }

  lemma StepPure(s: State, step: Step)
    requires WellFormed(s) && Pure(s) && Enabled(s, step)
    ensures Pure(Next(s, step))
  {
    match step {
      case OfSocket(x) => SocketPure(s, x);
      case OfLoad(x) => LoadCopiesStep(s, x); LoadPure(s, LoadDelta(s, x));
      case OfAdmission(x) => AdmissionPure(s, x);
      case OfSave(x) =>
      case OfDeparture(x) => DeparturePure(s, x);
      case OfHandler(x) => HandlerPure(s, x);
    }
    PureDeltaKeeps(s, DeltaOf(s, step));
  }

  // ---- Who wrote what ----

  /** A connection with write access, admitted to a room of that name, has applied the update. */
  ghost predicate WriterOf(s: State, c: Sock, n: Name, u: Update) {
    && c in s.conns && u in s.conns[c].authored && s.conns[c].canWrite
    && s.conns[c].room.Some? && s.conns[c].room.value in s.rooms && s.rooms[s.conns[c].room.value].name == n
  }

  ghost predicate Attributed(s: State, store: map<Name, set<Update>>) {
    forall n, u :: u in Lookedup(s.written, n) ==> u in Lookedup(store, n) || exists c :: WriterOf(s, c, n, u)
  }

  /** Nobody's authorship is taken back, and new writing is somebody's. */
  ghost predicate AttributedDelta(s: State, d: Delta) {
    && !d.conn.Remove? && !d.room.Remove? && !d.written.Remove?
    && (d.conn.Put? && d.conn.key in s.conns ==>
          && s.conns[d.conn.key].authored <= d.conn.value.authored
          && (s.conns[d.conn.key].room.Some? ==>
                d.conn.value.room == s.conns[d.conn.key].room && d.conn.value.canWrite == s.conns[d.conn.key].canWrite))
    && (d.room.Put? && d.room.key in s.rooms ==> d.room.value.name == s.rooms[d.room.key].name)
    && (d.written.Put? ==>
          d.conn.Put? &&
          forall u :: u in d.written.value ==>
            u in Lookedup(s.written, d.written.key) || WriterOf(Commit(s, d), d.conn.key, d.written.key, u))
  }

  lemma AttributedKeeps(s: State, d: Delta, store: map<Name, set<Update>>)
    requires Attributed(s, store) && AttributedDelta(s, d)
    ensures Attributed(Commit(s, d), store)
  {
    var s' := Commit(s, d);
    forall n, u | u in Lookedup(s'.written, n)
      ensures u in Lookedup(store, n) || exists c :: WriterOf(s', c, n, u)
    {
      if u in Lookedup(s.written, n) {
        if u !in Lookedup(store, n) {
          var c :| WriterOf(s, c, n, u);
          assert WriterOf(s', c, n, u);
        }
      } else {
        assert WriterOf(s', d.conn.key, n, u);
      }
    }
  }

  lemma AdmissionAttributed(s: State, step: AdmissionStep)
    requires WellFormed(s) && AdmissionEnabled(s, step)
    ensures AttributedDelta(s, AdmissionDelta(s, step))
  {
    assert ConnOk(s.rooms, s.conns[step.c]);
  }

  lemma HandlerAttributed(s: State, step: HandlerStep)
    requires WellFormed(s) && HandlerEnabled(s, step)
    ensures AttributedDelta(s, HandlerDelta(s, step))
  {
    var task := s.tasks[step.t];
    assert TaskOk(s, task);
    if step.Apply? { assert RoomIs(s.conns, task.author, task.room); }
  }

  lemma StepAttributed(s: State, step: Step, store: map<Name, set<Update>>)
    requires WellFormed(s) && Attributed(s, store) && Enabled(s, step)
    ensures Attributed(Next(s, step), store)
  {
    match step {
      case OfLoad(x) => LoadShape(s, x);
      case OfAdmission(x) => AdmissionAttributed(s, x);
      case OfHandler(x) => HandlerAttributed(s, x);
      case _ =>
    }
    AttributedKeeps(s, DeltaOf(s, step), store);
  }

  lemma {:induction false} PureRun(s: State, steps: seq<Step>, store: map<Name, set<Update>>)
    requires WellFormed(s) && Pure(s) && Attributed(s, store) && CanRun(s, steps)
    ensures WellFormed(Run(s, steps)) && Pure(Run(s, steps)) && Attributed(Run(s, steps), store)
    decreases |steps|
  {
    if steps != [] {
      WellFormedStep(s, steps[0]);
      StepPure(s, steps[0]);
      StepAttributed(s, steps[0], store);
      PureRun(Next(s, steps[0]), steps[1..], store);
    }
  }

  /** Everything sent to a connection, and everything in a room's document or in the store, was in the initial store
  under that room's name or was applied by a connection with write access admitted to that name. */
  lemma NoCrossRoomUpdates(store: map<Name, set<Update>>, steps: seq<Step>, n: Name, u: Update)
    requires CanRun(Init(store), steps)
    requires var s := Run(Init(store), steps);
             || (exists c, r :: c in s.conns && s.conns[c].room == Some(r) && r in s.rooms && s.rooms[r].name == n &&
                                u in s.conns[c].sent)
             || (exists r :: r in s.rooms && s.rooms[r].name == n && u in s.rooms[r].doc)
             || (n in s.store && u in s.store[n])
    ensures u in Lookedup(store, n) || exists c :: WriterOf(Run(Init(store), steps), c, n, u)
  {
    PureRun(Init(store), steps, store);
    var s := Run(Init(store), steps);
    assert u in Lookedup(s.written, n);
  }
}
