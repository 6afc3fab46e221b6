/** Nothing is left behind: a closed connection is on its way out of its room, and an abandoned room out of the
registry. */
module RelayDepartures {
  import opened Wrappers
  import opened Relay
  import opened RelayMembership
  import opened RelayLateGrants

  // ---- No connection stays in a room after its close ----

  /** If `c` is closed and still in a room, its departure is on its way, or its admission is about to see the close. */
  ghost predicate GoesSoon(s: State, c: Sock)
    requires c in s.conns
  {
    s.conns[c].closeFired ==>
      || s.conns[c].admission.Registered?
      || (exists t :: Departs(s.tasks, t, c))
      || (forall r :: r in s.rooms ==> c !in s.rooms[r].sockets)
  }

  ghost predicate NoneStay(s: State) { forall c :: c in s.conns ==> GoesSoon(s, c) }

  lemma DepartsStill(s: State, d: Delta, c: Sock)
    ensures forall t :: Departs(s.tasks, t, c) && (d.task.Keep? || d.task.key != t) ==>
            Departs(Commit(s, d).tasks, t, c)
  {
  }

  lemma SocketGoes(s: State, step: SocketStep, c: Sock)
    requires WellFormed(s) && NoneStay(s) && SocketEnabled(s, step) && c in Commit(s, SocketDelta(s, step)).conns
    ensures GoesSoon(Commit(s, SocketDelta(s, step)), c)
  {
    var d := SocketDelta(s, step);
    DepartsStill(s, d, c);
    if c in s.conns { assert GoesSoon(s, c); }
    if step.OnClose? && step.c == c {
      if s.conns[c].room.Some? {
        assert Departs(Commit(s, d).tasks, step.t, c);
      } else {
        forall r | r in s.rooms ensures c !in s.rooms[r].sockets { NotIn(s, r, c); }
      }
    }
  }

  lemma NotIn(s: State, r: RoomId, c: Sock)
    requires WellFormed(s) && r in s.rooms && c in s.conns && s.conns[c].room != Some(r)
    ensures c !in s.rooms[r].sockets
  {
    assert RoomOk(s.conns, r, s.rooms[r]);
    assert forall x :: x in s.rooms[r].sockets ==> x in Members(s.rooms[r]);
  }

  lemma LoadIsEarly(s: State, step: LoadStep)
    requires LoadEnabled(s, step)
    ensures var d := LoadDelta(s, step);
            d.conn.Put? && d.conn.key in s.conns ==> !s.conns[d.conn.key].admission.Registered?
  {
  }

  lemma LoadGoes(s: State, d: Delta, c: Sock)
    requires NoneStay(s) && LoadShaped(s, d) && c in Commit(s, d).conns
    requires !s.conns[d.conn.key].admission.Registered?
    ensures GoesSoon(Commit(s, d), c)
  {
    DepartsStill(s, d, c);
    assert GoesSoon(s, c);
  }

  lemma RegisterGoes(s: State, step: AdmissionStep, c: Sock)
    requires WellFormed(s) && NoneStay(s) && AdmissionEnabled(s, step) &&
             c in Commit(s, AdmissionDelta(s, step)).conns && (step.Publish? || step.Register?)
    ensures GoesSoon(Commit(s, AdmissionDelta(s, step)), c)
  {
    DepartsStill(s, AdmissionDelta(s, step), c);
    assert GoesSoon(s, c);
  }

  lemma CheckGoes(s: State, step: AdmissionStep, c: Sock)
    requires WellFormed(s) && NoneStay(s) && LeaveOnce(s) && AdmissionEnabled(s, step) &&
             c in Commit(s, AdmissionDelta(s, step)).conns && step.CheckOpen?
    ensures GoesSoon(Commit(s, AdmissionDelta(s, step)), c)
  {
    var d := AdmissionDelta(s, step);
    DepartsStill(s, d, c);
    assert GoesSoon(s, c) && LeavesOnce(s, c);
    if step.c == c && !s.conns[c].isOpen { assert Departs(Commit(s, d).tasks, step.t, c); }
  }

  lemma LaterGoes(s: State, step: AdmissionStep, c: Sock)
    requires WellFormed(s) && NoneStay(s) && AdmissionEnabled(s, step) && c in Commit(s, AdmissionDelta(s, step)).conns
    requires step.Decide? || step.SendState? || step.GoOpen? || step.Replay?
    ensures GoesSoon(Commit(s, AdmissionDelta(s, step)), c)
  {
    DepartsStill(s, AdmissionDelta(s, step), c);
    assert GoesSoon(s, c);
  }

  lemma SaveGoes(s: State, step: SaveStep, c: Sock)
    requires NoneStay(s) && SaveEnabled(s, step) && c in Commit(s, SaveDelta(s, step)).conns
    ensures GoesSoon(Commit(s, SaveDelta(s, step)), c)
  {
    DepartsStill(s, SaveDelta(s, step), c);
    assert GoesSoon(s, c);
  }

  lemma DepartureGoes(s: State, step: DepartureStep, c: Sock)
    requires WellFormed(s) && NoneStay(s) && DepartureEnabled(s, step) && c in Commit(s, DepartureDelta(s, step)).conns
    ensures GoesSoon(Commit(s, DepartureDelta(s, step)), c)
  {
    var d := DepartureDelta(s, step);
    DepartsStill(s, d, c);
    assert GoesSoon(s, c);
    if step.Drop? && s.tasks[step.t].sock == c {
      var r := s.tasks[step.t].room;
      assert TaskOk(s, s.tasks[step.t]);
      forall q | q in s.rooms && q != r ensures c !in s.rooms[q].sockets { NotIn(s, q, c); }
    }
  }

  lemma HandlerGoes(s: State, step: HandlerStep, c: Sock)
    requires NoneStay(s) && HandlerEnabled(s, step) && c in Commit(s, HandlerDelta(s, step)).conns
    ensures GoesSoon(Commit(s, HandlerDelta(s, step)), c)
  {
    DepartsStill(s, HandlerDelta(s, step), c);
    assert GoesSoon(s, c);
  }

  lemma AdmissionGoes(s: State, step: AdmissionStep, c: Sock)
    requires WellFormed(s) && NoneStay(s) && LeaveOnce(s) && AdmissionEnabled(s, step) &&
             c in Commit(s, AdmissionDelta(s, step)).conns
    ensures GoesSoon(Commit(s, AdmissionDelta(s, step)), c)
  {
    match step
    case Publish(_, _) => RegisterGoes(s, step, c);
    case Register(_) => RegisterGoes(s, step, c);
    case CheckOpen(_, _) => CheckGoes(s, step, c);
    case _ => LaterGoes(s, step, c);
  }

  lemma NoneStayStep(s: State, step: Step)
    requires WellFormed(s) && LeaveOnce(s) && NoneStay(s) && Enabled(s, step)
    ensures NoneStay(Next(s, step))
  {
    hide GoesSoon, WellFormed, LeaveOnce, Commit, SocketEnabled, LoadEnabled, SaveEnabled, DepartureEnabled;
    hide AdmissionEnabled, HandlerEnabled, SocketDelta, LoadDelta, AdmissionDelta, SaveDelta, DepartureDelta,
        HandlerDelta;
    forall c | c in Next(s, step).conns ensures GoesSoon(Next(s, step), c) {
      match step
      case OfSocket(x) => SocketGoes(s, x, c);
      case OfLoad(x) =>
        LoadShape(s, x);
        LoadIsEarly(s, x);
        LoadGoes(s, LoadDelta(s, x), c);
      case OfAdmission(x) => AdmissionGoes(s, x, c);
      case OfSave(x) => SaveGoes(s, x, c);
      case OfDeparture(x) => DepartureGoes(s, x, c);
      case OfHandler(x) => HandlerGoes(s, x, c);
    }
  }

  // ---- No abandoned room stays registered ----

  /** Task `t` will look at room `r` to forget it. */
  ghost predicate Clears(tasks: map<TaskId, Task>, t: TaskId, r: RoomId) {
    t in tasks && tasks[t].room == r &&
    match tasks[t]
    case Flushing(_) => true
    case Encoding(_, forget) => forget
    case Saving(_, forget, _) => forget
    case Forgetting(_) => true
    case _ => false
  }

  ghost predicate ClearedSoon(s: State, r: RoomId)
    requires r in s.rooms
  {
    Abandoned(s.rooms[r]) && Live(s, r) ==> exists t :: Clears(s.tasks, t, r)
  }

  ghost predicate NoneLeak(s: State) { forall r :: r in s.rooms ==> ClearedSoon(s, r) }

  lemma ClearsStill(s: State, d: Delta, r: RoomId)
    ensures forall t :: Clears(s.tasks, t, r) && (d.task.Keep? || d.task.key != t) ==> Clears(Commit(s, d).tasks, t, r)
  {
  }

  lemma SocketClears(s: State, step: SocketStep, r: RoomId)
    requires NoneLeak(s) && SocketEnabled(s, step) && r in Commit(s, SocketDelta(s, step)).rooms
    ensures ClearedSoon(Commit(s, SocketDelta(s, step)), r)
  {
    ClearsStill(s, SocketDelta(s, step), r);
    assert ClearedSoon(s, r);
  }

  lemma LoadInstalls(s: State, step: LoadStep)
    requires LoadEnabled(s, step)
    ensures var d := LoadDelta(s, step);
            !d.registry.Remove? && (d.registry.Put? ==> d.room.Put? && d.room.key == d.registry.value)
  {
  }

  lemma LoadClears(s: State, d: Delta, r: RoomId)
    requires NoneLeak(s) && PendingCounted(s) && LoadShaped(s, d) && r in Commit(s, d).rooms
    requires !d.registry.Remove? && (d.registry.Put? ==> d.room.Put? && d.room.key == d.registry.value)
    ensures ClearedSoon(Commit(s, d), r)
  {
    ClearsStill(s, d, r);
    if r in s.rooms { assert ClearedSoon(s, r) && s.rooms[r].pending == |WaitingSet(s, r)|; }
  }

  lemma AdmissionClears(s: State, step: AdmissionStep, r: RoomId)
    requires NoneLeak(s) && AdmissionEnabled(s, step) && r in Commit(s, AdmissionDelta(s, step)).rooms
    ensures ClearedSoon(Commit(s, AdmissionDelta(s, step)), r)
  {
    ClearsStill(s, AdmissionDelta(s, step), r);
    if r in s.rooms { assert ClearedSoon(s, r); }
  }

  lemma SaveClears(s: State, step: SaveStep, r: RoomId)
    requires NoneLeak(s) && SaveEnabled(s, step) && r in Commit(s, SaveDelta(s, step)).rooms
    ensures ClearedSoon(Commit(s, SaveDelta(s, step)), r)
  {
    ClearsStill(s, SaveDelta(s, step), r);
    assert ClearedSoon(s, r);
  }

  lemma DepartureClears(s: State, step: DepartureStep, r: RoomId)
    requires NoneLeak(s) && DepartureEnabled(s, step) && r in Commit(s, DepartureDelta(s, step)).rooms
    ensures ClearedSoon(Commit(s, DepartureDelta(s, step)), r)
  {
    var d := DepartureDelta(s, step);
    ClearsStill(s, d, r);
    assert ClearedSoon(s, r);
    if s.tasks[step.t].room == r && d.task.Put? {
      assert Clears(Commit(s, d).tasks, step.t, r) || !Clears(s.tasks, step.t, r);
    }
  }

  lemma HandlerClears(s: State, step: HandlerStep, r: RoomId)
    requires NoneLeak(s) && HandlerEnabled(s, step) && r in Commit(s, HandlerDelta(s, step)).rooms
    ensures ClearedSoon(Commit(s, HandlerDelta(s, step)), r)
  {
    ClearsStill(s, HandlerDelta(s, step), r);
    assert ClearedSoon(s, r);
  }

  lemma NoneLeakStep(s: State, step: Step)
    requires Membership(s) && NoneLeak(s) && Enabled(s, step)
    ensures NoneLeak(Next(s, step))
  {
    hide ClearedSoon, Commit, SocketEnabled, LoadEnabled, AdmissionEnabled, SaveEnabled, DepartureEnabled,
        HandlerEnabled;
    hide SocketDelta, LoadDelta, AdmissionDelta, SaveDelta, DepartureDelta, HandlerDelta;
    forall r | r in Next(s, step).rooms ensures ClearedSoon(Next(s, step), r) {
      match step
      case OfSocket(x) => SocketClears(s, x, r);
      case OfLoad(x) =>
        LoadShape(s, x);
        LoadInstalls(s, x);
        LoadClears(s, LoadDelta(s, x), r);
      case OfAdmission(x) => AdmissionClears(s, x, r);
      case OfSave(x) => SaveClears(s, x, r);
      case OfDeparture(x) => DepartureClears(s, x, r);
      case OfHandler(x) => HandlerClears(s, x, r);
    }
  }

  // ---- Every run ----

  lemma {:induction false} NothingStaysRun(s: State, steps: seq<Step>)
    requires Membership(s) && LeaveOnce(s) && NoneStay(s) && NoneLeak(s) && CanRun(s, steps)
    ensures NoneStay(Run(s, steps)) && NoneLeak(Run(s, steps))
    decreases |steps|
  {
    if steps != [] {
      LeaveOnceStep(s, steps[0]);
      MembershipStep(s, steps[0]);
      NoneStayStep(s, steps[0]);
      NoneLeakStep(s, steps[0]);
      NothingStaysRun(Next(s, steps[0]), steps[1..]);
    }
  }

  /** In every reachable state a closed connection that is still in a room has its departure on its way, or an admission
  that has not yet looked whether it is open. */
  lemma NoZombies(store: map<Name, set<Update>>, steps: seq<Step>, c: Sock, r: RoomId)
    requires CanRun(Init(store), steps)
    requires var s := Run(Init(store), steps);
             r in s.rooms && c in s.rooms[r].sockets && c in s.conns && s.conns[c].closeFired
    ensures var s := Run(Init(store), steps); s.conns[c].admission.Registered? || exists t :: Departs(s.tasks, t, c)
  {
    NothingStaysRun(Init(store), steps);
    assert GoesSoon(Run(Init(store), steps), c);
  }

  /** In every reachable state a registered room with nobody in it and nobody about to join has a goroutine on its way
  that will look at it again to forget it. */
  lemma NoLeakedRooms(store: map<Name, set<Update>>, steps: seq<Step>, r: RoomId)
    requires CanRun(Init(store), steps)
    requires var s := Run(Init(store), steps); r in s.rooms && Live(s, r) && Abandoned(s.rooms[r])
    ensures var s := Run(Init(store), steps); exists t :: Clears(s.tasks, t, r)
  {
    NothingStaysRun(Init(store), steps);
    assert ClearedSoon(Run(Init(store), steps), r);
  }
}
