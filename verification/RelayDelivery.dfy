/** No joiner misses an update. */
module RelayDelivery {
  import opened Wrappers
  import opened Relay
  import opened RelayMembership

  /** A handler that has applied the updates and has not finished sending them to `c`. */
  predicate Carries(task: Task, r: RoomId, c: Sock, u: Update) {
    match task
    case Applied(a, r', us) => r' == r && a != c && u in us
    case Gathering(a, r', us) => r' == r && a != c && u in us
    case Fanning(a, r', us, rest) => r' == r && u in us && c in rest
    case _ => false
  }

  ghost predicate Held(s: State, r: RoomId, c: Sock, u: Update) {
    exists t :: t in s.tasks && Carries(s.tasks[t], r, c, u)
  }

  predicate Has(k: Conn, u: Update) {
    (k.encoded.Some? && u in k.encoded.value) || u in k.sent || u in k.authored
  }

  ghost predicate Expects(s: State, r: RoomId, c: Sock) {
    r in s.rooms && c in s.rooms[r].sockets && c in s.conns && s.conns[c].isOpen && s.conns[c].encoded.Some?
  }

  ghost predicate NothingMissed(s: State) {
    forall r, c, u :: Expects(s, r, c) && u in s.rooms[r].doc ==> Has(s.conns[c], u) || Held(s, r, c, u)
  }

  ghost predicate HistoryGrows(k: Conn, k': Conn) {
    && (k'.isOpen ==> k.isOpen)
    && (k.encoded.Some? ==> k'.encoded == k.encoded)
    && k.sent <= k'.sent && k.authored <= k'.authored
  }

  /** The change lets nobody newly expect anything it does not have, and keeps what is known of the others. */
  ghost predicate Quiet(s: State, d: Delta) {
    && !d.conn.Remove? && !d.room.Remove?
    && (d.conn.Put? ==>
          if d.conn.key in s.conns then HistoryGrows(s.conns[d.conn.key], d.conn.value)
          else d.conn.value.encoded.None?)
    && (d.conn.Put? && d.conn.key in s.conns && s.conns[d.conn.key].encoded.None? && d.conn.value.encoded.Some? ==>
          d.room.Put? && d.conn.value.room == Some(d.room.key) && d.conn.value.encoded.value == d.room.value.doc)
    && (d.room.Put? ==>
          if d.room.key in s.rooms then
            && d.room.value.doc == s.rooms[d.room.key].doc
            && (forall c :: c in d.room.value.sockets && c !in s.rooms[d.room.key].sockets ==>
                  d.conn.Put? && d.conn.key == c && d.conn.value.encoded.None?)
          else d.room.value.sockets == {})
  }

  /** What the tasks still carry to the connections of a room survives the change. */
  ghost predicate CarriedOn(s: State, d: Delta, r: RoomId, c: Sock, u: Update) {
    var s' := Commit(s, d);
    Held(s, r, c, u) && Expects(s', r, c) ==> Has(s'.conns[c], u) || Held(s', r, c, u)
  }

  lemma QuietKeeps(s: State, d: Delta)
    requires WellFormed(s) && WellFormed(Commit(s, d)) && NothingMissed(s) && Quiet(s, d)
    requires forall r, c, u :: CarriedOn(s, d, r, c, u)
    ensures NothingMissed(Commit(s, d))
  {
    var s' := Commit(s, d);
    forall r, c, u | Expects(s', r, c) && u in s'.rooms[r].doc
      ensures Has(s'.conns[c], u) || Held(s', r, c, u)
    {
      assert RoomOk(s'.conns, r, s'.rooms[r]);
      assert c in Members(s'.rooms[r]);
      if Expects(s, r, c) {
        assert Has(s.conns[c], u) || Held(s, r, c, u);
        assert CarriedOn(s, d, r, c, u);
      }
    }
  }

  lemma TasksKept(s: State, d: Delta)
    requires d.task.Keep? || d.task.key !in s.tasks ||
             (d.task.key in s.tasks &&
              !(s.tasks[d.task.key].Applied? || s.tasks[d.task.key].Gathering? || s.tasks[d.task.key].Fanning?))
    ensures forall r, c, u :: CarriedOn(s, d, r, c, u)
  {
    forall r, c, u | Held(s, r, c, u) ensures Held(Commit(s, d), r, c, u) {
      var t :| t in s.tasks && Carries(s.tasks[t], r, c, u);
      assert t in Commit(s, d).tasks && Commit(s, d).tasks[t] == s.tasks[t];
    }
  }

  lemma SocketQuiet(s: State, step: SocketStep)
    requires WellFormed(s) && SocketEnabled(s, step)
    ensures Quiet(s, SocketDelta(s, step))
  {
  }

  lemma LoadQuiet(s: State, d: Delta)
    requires WellFormed(s) && LoadShaped(s, d)
    ensures Quiet(s, d)
  {
  }

  lemma AdmissionQuiet(s: State, step: AdmissionStep)
    requires WellFormed(s) && AdmissionEnabled(s, step)
    ensures Quiet(s, AdmissionDelta(s, step))
    ensures var d := AdmissionDelta(s, step); d.task.Keep? || d.task.key !in s.tasks
  {
    assert ConnOk(s.rooms, s.conns[step.c]);
  }

  lemma DepartureQuiet(s: State, step: DepartureStep)
    requires WellFormed(s) && DepartureEnabled(s, step)
    ensures Quiet(s, DepartureDelta(s, step))
  {
  }

  lemma HandlerQuiet(s: State, step: HandlerStep)
    requires WellFormed(s) && HandlerEnabled(s, step) && !step.Apply?
    ensures Quiet(s, HandlerDelta(s, step))
    ensures forall r, c, u :: CarriedOn(s, HandlerDelta(s, step), r, c, u)
  {
    var d := HandlerDelta(s, step);
    var s' := Commit(s, d);
    forall r, c, u | Held(s, r, c, u) && Expects(s', r, c) ensures Has(s'.conns[c], u) || Held(s', r, c, u) {
      var t :| t in s.tasks && Carries(s.tasks[t], r, c, u);
      if t != step.t || step.Arm? || step.Gather? || (step.Deliver? && step.peer != c) {
        assert t in s'.tasks && Carries(s'.tasks[t], r, c, u);
      }
    }
  }

  lemma ApplyKeeps(s: State, t: TaskId)
    requires HandlerEnabled(s, Apply(t))
    requires WellFormed(s) && WellFormed(Commit(s, HandlerDelta(s, Apply(t)))) && NothingMissed(s)
    ensures NothingMissed(Commit(s, HandlerDelta(s, Apply(t))))
  {
    var d := HandlerDelta(s, Apply(t));
    var s' := Commit(s, d);
    TasksKept(s, d);
    forall r, c, u | Expects(s', r, c) && u in s'.rooms[r].doc
      ensures Has(s'.conns[c], u) || Held(s', r, c, u)
    {
      assert Expects(s, r, c);
      if u in s.rooms[r].doc {
        assert CarriedOn(s, d, r, c, u);
      } else {
        assert Carries(s'.tasks[t], r, c, u) || u in s'.conns[c].authored;
      }
    }
  }

  lemma NothingMissedStep(s: State, step: Step)
    requires WellFormed(s) && Enabled(s, step) && WellFormed(Next(s, step)) && NothingMissed(s)
    ensures NothingMissed(Next(s, step))
  {
    var d := DeltaOf(s, step);
    match step
    case OfSocket(x) => SocketQuiet(s, x); TasksKept(s, d); QuietKeeps(s, d);
    case OfLoad(x) => LoadShape(s, x); LoadQuiet(s, d); TasksKept(s, d); QuietKeeps(s, d);
    case OfAdmission(x) => AdmissionQuiet(s, x); TasksKept(s, d); QuietKeeps(s, d);
    case OfSave(x) => TasksKept(s, d); QuietKeeps(s, d);
    case OfDeparture(x) => DepartureQuiet(s, x); TasksKept(s, d); QuietKeeps(s, d);
    case OfHandler(x) =>
      if x.Apply? { ApplyKeeps(s, x.t); } else { HandlerQuiet(s, x); QuietKeeps(s, d); }
  }

  lemma {:induction false} NothingMissedRun(s: State, steps: seq<Step>)
    requires WellFormed(s) && NothingMissed(s) && CanRun(s, steps)
    ensures WellFormed(Run(s, steps)) && NothingMissed(Run(s, steps))
    decreases |steps|
  {
    if steps != [] {
      WellFormedStep(s, steps[0]);
      NothingMissedStep(s, steps[0]);
      NothingMissedRun(Next(s, steps[0]), steps[1..]);
    }
  }

  /** In every reachable state, each update in a room's document has reached every registered open connection past
  its state encode: in the state encoded for it, by a send, because it is its own, or it is in the hands of a
  handler that still has to send it there. */
  lemma NoUpdateMissed(store: map<Name, set<Update>>, steps: seq<Step>, r: RoomId, c: Sock, u: Update)
    requires CanRun(Init(store), steps) && Expects(Run(Init(store), steps), r, c)
    requires u in Run(Init(store), steps).rooms[r].doc
    ensures var s := Run(Init(store), steps);
            || (u in s.conns[c].encoded.value || u in s.conns[c].sent || u in s.conns[c].authored)
            || exists t :: t in s.tasks && Carries(s.tasks[t], r, c, u)
  {
    NothingMissedRun(Init(store), steps);
    assert Held(Run(Init(store), steps), r, c, u) || Has(Run(Init(store), steps).conns[c], u);
  }

  // ---- The encoded state is on its way or sent ----

  ghost predicate StateOut(k: Conn) {
    k.encoded.Some? ==> (k.admission.Decided? && k.admission.state == k.encoded.value) || k.encoded.value <= k.sent
  }

  ghost predicate StatesOut(s: State) { forall c :: c in s.conns ==> StateOut(s.conns[c]) }

  ghost predicate SendsOut(d: Delta) { d.conn.Put? ==> StateOut(d.conn.value) }

  lemma SocketSends(s: State, step: SocketStep)
    requires StatesOut(s) && SocketEnabled(s, step)
    ensures SendsOut(SocketDelta(s, step))
  {
    assert step.c in s.conns ==> StateOut(s.conns[step.c]);
  }

  lemma LoadSends(s: State, step: LoadStep)
    requires StatesOut(s) && LoadEnabled(s, step)
    ensures SendsOut(LoadDelta(s, step))
  {
    assert StateOut(s.conns[step.c]);
  }

  lemma AdmissionSends(s: State, step: AdmissionStep)
    requires StatesOut(s) && AdmissionEnabled(s, step)
    ensures SendsOut(AdmissionDelta(s, step))
  {
    assert StateOut(s.conns[step.c]);
  }

  lemma HandlerSends(s: State, step: HandlerStep)
    requires StatesOut(s) && HandlerEnabled(s, step)
    ensures SendsOut(HandlerDelta(s, step))
  {
  }

  lemma StepSends(s: State, step: Step)
    requires StatesOut(s) && Enabled(s, step)
    ensures SendsOut(DeltaOf(s, step))
  {
    hide StatesOut, StateOut, SocketEnabled, LoadEnabled, AdmissionEnabled, HandlerEnabled;
    hide SocketDelta, LoadDelta, AdmissionDelta, HandlerDelta;
    match step
    case OfSocket(x) => SocketSends(s, x);
    case OfLoad(x) => LoadSends(s, x);
    case OfAdmission(x) => AdmissionSends(s, x);
    case OfHandler(x) => HandlerSends(s, x);
    case _ =>
  }

  lemma SendsKeep(s: State, d: Delta)
    requires StatesOut(s) && SendsOut(d)
    ensures StatesOut(Commit(s, d))
  {
  }

  lemma {:induction false} StatesOutRun(s: State, steps: seq<Step>)
    requires StatesOut(s) && CanRun(s, steps)
    ensures StatesOut(Run(s, steps))
    decreases |steps|
  {
    if steps != [] {
      StepSends(s, steps[0]);
      SendsKeep(s, DeltaOf(s, steps[0]));
      StatesOutRun(Next(s, steps[0]), steps[1..]);
    }
  }

  /** Once no handler is at work on the room, every such connection has been sent the whole document but for what it
  wrote itself, unless the state encoded for it is still to be sent. */
  lemma QuiescentPeersAgree(store: map<Name, set<Update>>, steps: seq<Step>, r: RoomId, c: Sock)
    requires CanRun(Init(store), steps) && Expects(Run(Init(store), steps), r, c)
    requires var s := Run(Init(store), steps);
             forall t :: t in s.tasks && (s.tasks[t].Applied? || s.tasks[t].Gathering? || s.tasks[t].Fanning?) ==>
               s.tasks[t].room != r
    ensures var s := Run(Init(store), steps);
            && s.rooms[r].doc <= s.conns[c].encoded.value + s.conns[c].sent + s.conns[c].authored
            && (!s.conns[c].admission.Decided? ==> s.rooms[r].doc <= s.conns[c].sent + s.conns[c].authored)
  {
    forall u | u in Run(Init(store), steps).rooms[r].doc
      ensures var k := Run(Init(store), steps).conns[c]; u in k.encoded.value + k.sent + k.authored
    {
      NoUpdateMissed(store, steps, r, c, u);
    }
    StatesOutRun(Init(store), steps);
    assert StateOut(Run(Init(store), steps).conns[c]);
  }
}
