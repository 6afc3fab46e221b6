/** What a late grant costs: in every reachable state it leaves the seed with a connection that has left for good. */
module RelayLateGrants {
  import opened Wrappers
  import opened Relay
  import opened RelayMembership
  import opened RelaySeeding

  ghost predicate Departs(tasks: map<TaskId, Task>, t: TaskId, c: Sock) {
    t in tasks && tasks[t].Dropping? && tasks[t].sock == c
  }

  /** A connection that has not decided yet departs at most once and only after its close; past its registration it is
  in its room until then. */
  ghost predicate LeavesOnce(s: State, c: Sock)
    requires c in s.conns
  {
    var k := s.conns[c];
    && (k.closeFired ==> !k.isOpen)
    && (BeforeDecision(k.admission) ==>
          && (forall t :: Departs(s.tasks, t, c) ==> k.closeFired)
          && (forall t, t' :: Departs(s.tasks, t, c) && Departs(s.tasks, t', c) ==> t == t'))
    && (k.admission.Registered? || k.admission.CheckedOpen? ==>
          k.admission.room in s.rooms &&
          var sockets := s.rooms[k.admission.room].sockets;
          && (!k.closeFired ==> c in sockets)
          && (k.admission.CheckedOpen? && c !in sockets ==> forall t :: !Departs(s.tasks, t, c)))
  }

  ghost predicate LeaveOnce(s: State) { forall c :: c in s.conns ==> LeavesOnce(s, c) }

  lemma DepartsBefore(s: State, d: Delta, c: Sock)
    ensures forall t :: Departs(Commit(s, d).tasks, t, c) ==>
              if d.task.Put? && t == d.task.key then d.task.value.Dropping? && d.task.value.sock == c
              else Departs(s.tasks, t, c)
    ensures forall t :: Departs(Commit(s, d).tasks, t, c) ==> !(d.task.Remove? && t == d.task.key)
  {
  }

  lemma SocketLeaves(s: State, step: SocketStep, c: Sock)
    requires WellFormed(s) && LeaveOnce(s) && SocketEnabled(s, step) && c in Commit(s, SocketDelta(s, step)).conns
    ensures LeavesOnce(Commit(s, SocketDelta(s, step)), c)
  {
    DepartsBefore(s, SocketDelta(s, step), c);
    if c in s.conns {
      assert LeavesOnce(s, c);
    } else {
      assert forall t :: Departs(s.tasks, t, c) ==> TaskOk(s, s.tasks[t]);
    }
  }

  lemma LoadLeaves(s: State, d: Delta, c: Sock)
    requires LeaveOnce(s) && LoadShaped(s, d) && c in Commit(s, d).conns
    requires BeforeDecision(d.conn.value.admission) ==> BeforeDecision(s.conns[d.conn.key].admission)
    ensures LeavesOnce(Commit(s, d), c)
  {
    DepartsBefore(s, d, c);
    assert LeavesOnce(s, c);
  }

  lemma RegisterLeaves(s: State, step: AdmissionStep, c: Sock)
    requires WellFormed(s) && LeaveOnce(s) && AdmissionEnabled(s, step) && c in s.conns
    requires step.Publish? || step.Register?
    ensures LeavesOnce(Commit(s, AdmissionDelta(s, step)), c)
  {
    DepartsBefore(s, AdmissionDelta(s, step), c);
    assert LeavesOnce(s, c);
  }

  lemma CheckLeaves(s: State, step: AdmissionStep, c: Sock)
    requires WellFormed(s) && LeaveOnce(s) && AdmissionEnabled(s, step) && c in s.conns
    requires step.CheckOpen? || step.Decide?
    ensures LeavesOnce(Commit(s, AdmissionDelta(s, step)), c)
  {
    DepartsBefore(s, AdmissionDelta(s, step), c);
    assert LeavesOnce(s, c);
  }

  /** Once decided, an admission no longer matters here. */
  ghost predicate PastDecision(s: State, d: Delta) {
    && d.room.Keep? && !d.task.Remove? && (d.task.Put? ==> !d.task.value.Dropping?) && d.conn.Put? &&
        d.conn.key in s.conns
    && d.conn.value.closeFired == s.conns[d.conn.key].closeFired && d.conn.value.isOpen == s.conns[d.conn.key].isOpen
    && !BeforeDecision(d.conn.value.admission)
  }

  lemma LateAdmissionIsPast(s: State, step: AdmissionStep)
    requires AdmissionEnabled(s, step) && (step.SendState? || step.GoOpen? || step.Replay?)
    ensures PastDecision(s, AdmissionDelta(s, step))
  {
  }

  lemma PastDecisionLeaves(s: State, d: Delta, c: Sock)
    requires LeaveOnce(s) && PastDecision(s, d) && c in s.conns
    ensures LeavesOnce(Commit(s, d), c)
  {
    DepartsBefore(s, d, c);
    assert LeavesOnce(s, c);
  }

  lemma DepartureLeaves(s: State, step: DepartureStep, c: Sock)
    requires LeaveOnce(s) && DepartureEnabled(s, step) && c in s.conns
    ensures LeavesOnce(Commit(s, DepartureDelta(s, step)), c)
  {
    DepartsBefore(s, DepartureDelta(s, step), c);
    assert step.Drop? && s.tasks[step.t].sock == c ==> Departs(s.tasks, step.t, c);
    assert LeavesOnce(s, c);
  }

  lemma HandlerLeaves(s: State, step: HandlerStep, c: Sock)
    requires LeaveOnce(s) && HandlerEnabled(s, step) && c in s.conns
    ensures LeavesOnce(Commit(s, HandlerDelta(s, step)), c)
  {
    DepartsBefore(s, HandlerDelta(s, step), c);
    assert LeavesOnce(s, c);
  }

  lemma AdmissionLeaves(s: State, step: AdmissionStep, c: Sock)
    requires WellFormed(s) && LeaveOnce(s) && AdmissionEnabled(s, step) && c in s.conns
    ensures LeavesOnce(Commit(s, AdmissionDelta(s, step)), c)
  {
    match step
    case Publish(_, _) => RegisterLeaves(s, step, c);
    case Register(_) => RegisterLeaves(s, step, c);
    case CheckOpen(_, _) => CheckLeaves(s, step, c);
    case Decide(_) => CheckLeaves(s, step, c);
    case _ =>
      LateAdmissionIsPast(s, step);
      PastDecisionLeaves(s, AdmissionDelta(s, step), c);
  }

  lemma SaveLeaves(s: State, step: SaveStep, c: Sock)
    requires LeaveOnce(s) && SaveEnabled(s, step) && c in s.conns
    ensures LeavesOnce(Commit(s, SaveDelta(s, step)), c)
  {
    DepartsBefore(s, SaveDelta(s, step), c);
    assert LeavesOnce(s, c);
  }

  lemma LoadGoesBack(s: State, step: LoadStep)
    requires LoadEnabled(s, step)
    ensures BeforeDecision(s.conns[step.c].admission)
    ensures LoadDelta(s, step).conn.Put? ==> LoadDelta(s, step).conn.key == step.c
  {
  }

  lemma LeaveOnceStep(s: State, step: Step)
    requires WellFormed(s) && LeaveOnce(s) && Enabled(s, step)
    ensures LeaveOnce(Next(s, step))
  {
    hide LeavesOnce, WellFormed, SocketEnabled, LoadEnabled, SaveEnabled, DepartureEnabled;
    forall c | c in Next(s, step).conns ensures LeavesOnce(Next(s, step), c) {
      match step
      case OfSocket(x) => SocketLeaves(s, x, c);
      case OfLoad(x) =>
        LoadShape(s, x);
        LoadGoesBack(s, x);
        LoadLeaves(s, LoadDelta(s, x), c);
      case OfAdmission(x) => AdmissionLeaves(s, x, c);
      case OfSave(x) => SaveLeaves(s, x, c);
      case OfDeparture(x) => DepartureLeaves(s, x, c);
      case OfHandler(x) => HandlerLeaves(s, x, c);
    }
  }

  /** A late grant, in a state where connections leave once, loses the seed. */
  lemma LateGrantLoses(s: State, step: Step)
    requires WellFormed(s) && LeaveOnce(s) && Enabled(s, step) && LateGrant(s, step)
    ensures SeedLost(Next(s, step), s.conns[step.admission.c].admission.room)
  {
    assert LeavesOnce(s, step.admission.c);
    assert forall t :: t in s.tasks && s.tasks[t].Dropping? && s.tasks[t].sock == step.admission.c ==>
        Departs(s.tasks, t, step.admission.c);
  }

  lemma {:induction false} LeaveOnceRun(s: State, steps: seq<Step>)
    requires Membership(s) && LeaveOnce(s) && CanRun(s, steps)
    ensures Membership(Run(s, steps)) && LeaveOnce(Run(s, steps))
    decreases |steps|
  {
    if steps != [] {
      LeaveOnceStep(s, steps[0]);
      MembershipStep(s, steps[0]);
      LeaveOnceRun(Next(s, steps[0]), steps[1..]);
    }
  }

  /** Until a writer's content arrives, the seed stays lost. */
  ghost predicate LostUntilWritten(s: State, steps: seq<Step>, r: RoomId)
    requires CanRun(s, steps)
    decreases |steps|
  {
    SeedLost(s, r) && (steps != [] ==>
      (r in Next(s, steps[0]).rooms && Next(s, steps[0]).rooms[r].doc != {}) ||
          LostUntilWritten(Next(s, steps[0]), steps[1..], r))
  }

  lemma {:induction false} StaysLost(s: State, steps: seq<Step>, r: RoomId)
    requires Membership(s) && SeedLost(s, r) && CanRun(s, steps)
    ensures LostUntilWritten(s, steps, r)
    decreases |steps|
  {
    if steps != [] {
      MembershipStep(s, steps[0]);
      LostSeedStaysLost(s, steps[0], r);
      if SeedLost(Next(s, steps[0]), r) { StaysLost(Next(s, steps[0]), steps[1..], r); }
    }
  }

  /** In every run: as soon as a late grant is made the room's seed is lost, and it stays lost however the run goes on
  until somebody writes without the grant. */
  lemma LateGrantIsForGood(store: map<Name, set<Update>>, steps: seq<Step>, step: Step, more: seq<Step>)
    requires CanRun(Init(store), steps)
    requires var s := Run(Init(store), steps); Enabled(s, step) && LateGrant(s, step) && CanRun(Next(s, step), more)
    ensures var s := Run(Init(store), steps);
            LostUntilWritten(Next(s, step), more, s.conns[step.admission.c].admission.room)
  {
    LeaveOnceRun(Init(store), steps);
    var s := Run(Init(store), steps);
    LateGrantLoses(s, step);
    MembershipStep(s, step);
    StaysLost(Next(s, step), more, s.conns[step.admission.c].admission.room);
  }
}
