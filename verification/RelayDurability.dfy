/** No accepted update is lost: it is stored, or a save that will store it is on its way. And whether the registered
room of a name holds all that is stored under it. */
module RelayDurability {
  import opened Wrappers
  import opened Relay
  import opened RelayMembership

  // ---- Every accepted update is stored or will be ----

  /** The goroutine will store update `u` of room `r`, or arm the timer that will. */
  predicate Secures(task: Task, r: RoomId, u: Update) {
    task.room == r &&
    match task
    case Applied(_, _, _) => true
    case Flushing(_) => true
    case Encoding(_, _) => true
    case Saving(_, _, snapshot) => u in snapshot
    case _ => false
  }

  ghost predicate Secured(s: State, r: RoomId, u: Update)
    requires r in s.rooms
  {
    s.rooms[r].saveArmed || exists t :: t in s.tasks && Secures(s.tasks[t], r, u)
  }

  /** Some room of that name holds the update and it is on its way to the store. */
  ghost predicate OnItsWay(s: State, n: Name, u: Update) {
    exists r :: r in s.rooms && Holds(s.rooms[r], n, u) && Secured(s, r, u)
  }

  predicate Holds(room: Room, n: Name, u: Update) { room.name == n && u in room.doc }

  ghost predicate NothingLost(s: State) {
    forall n, u :: u in Lookedup(s.written, n) ==> u in Lookedup(s.store, n) || OnItsWay(s, n, u)
  }

  /** A save that fails, or puts a snapshot over an entry with more in it. */
  ghost predicate LossySave(s: State, step: Step)
    requires Enabled(s, step)
  {
    step.OfDeparture? && step.departure.Save? && (!step.departure.ok || OverwritingSave(s, step))
  }

  ghost predicate OverwritingSave(s: State, step: Step)
    requires Enabled(s, step)
  {
    step.OfDeparture? && step.departure.Save? && step.departure.ok &&
    var task := s.tasks[step.departure.t];
    !(Lookedup(s.store, s.rooms[task.room].name) <= task.snapshot)
  }

  /** Nothing stored goes, names and documents stay, and what is secured stays so or is stored. */
  ghost predicate KeepsSecured(s: State, d: Delta) {
    var s' := Commit(s, d);
    && !d.room.Remove?
    && (forall n :: Lookedup(s.store, n) <= Lookedup(s'.store, n))
    && (d.room.Put? && d.room.key in s.rooms ==>
          d.room.value.name == s.rooms[d.room.key].name && s.rooms[d.room.key].doc <= d.room.value.doc)
    && (forall r, u :: r in s.rooms && u in s.rooms[r].doc && Secured(s, r, u) ==>
          u in Lookedup(s'.store, s.rooms[r].name) || (r in s'.rooms && Secured(s', r, u)))
  }

  lemma SecuredKeeps(s: State, d: Delta)
    requires NothingLost(s) && KeepsSecured(s, d) && d.written.Keep?
    ensures NothingLost(Commit(s, d))
  {
    var s' := Commit(s, d);
    forall n, u | u in Lookedup(s'.written, n) ensures u in Lookedup(s'.store, n) || OnItsWay(s', n, u) {
      StillSafe(s, d, n, u);
    }
  }

  lemma StillSafe(s: State, d: Delta, n: Name, u: Update)
    requires KeepsSecured(s, d) && (u in Lookedup(s.store, n) || OnItsWay(s, n, u))
    ensures u in Lookedup(Commit(s, d).store, n) || OnItsWay(Commit(s, d), n, u)
  {
    var s' := Commit(s, d);
    if u !in Lookedup(s.store, n) {
      var r :| r in s.rooms && Holds(s.rooms[r], n, u) && Secured(s, r, u);
      assert r in s'.rooms && Holds(s'.rooms[r], n, u);
    }
  }

  /** Neither a timer nor a goroutine that secures something goes. */
  lemma NoneGoes(s: State, d: Delta)
    requires d.store.Keep? && !d.room.Remove?
    requires d.room.Put? && d.room.key in s.rooms ==>
               d.room.value.name == s.rooms[d.room.key].name && s.rooms[d.room.key].doc <= d.room.value.doc &&
               (s.rooms[d.room.key].saveArmed ==> d.room.value.saveArmed)
    requires !d.task.Keep? && d.task.key in s.tasks ==> forall r, u :: !Secures(s.tasks[d.task.key], r, u)
    ensures KeepsSecured(s, d)
  {
    var s' := Commit(s, d);
    forall r, u | r in s.rooms && Secured(s, r, u) ensures r in s'.rooms && Secured(s', r, u) {
      if !s.rooms[r].saveArmed {
        var t :| t in s.tasks && Secures(s.tasks[t], r, u);
        assert t in s'.tasks && Secures(s'.tasks[t], r, u);
      }
    }
  }

  /** The goroutine at `t` goes on to secure all of its room, whatever else changes there. */
  lemma GoesOn(s: State, d: Delta, r: RoomId)
    requires d.store.Keep? && !d.room.Remove? && r in s.rooms
    requires d.room.Put? ==>
               d.room.key == r && d.room.value.name == s.rooms[r].name && d.room.value.doc == s.rooms[r].doc
    requires d.task.Put? && d.task.key in s.tasks ==> s.tasks[d.task.key].room == r
    requires (d.room.Put? && d.room.value.saveArmed) || (d.task.Put? && d.task.value.Encoding?) ||
             (d.room.Keep? && d.task.Put? && d.task.value.Saving? && d.task.value.snapshot == s.rooms[r].doc)
    requires d.task.Put? && (d.task.value.room == r || !d.task.value.Encoding?)
    requires d.task.value.Saving? ==> d.task.value.room == r
    ensures KeepsSecured(s, d)
  {
    var s' := Commit(s, d);
    forall q, u | q in s.rooms && u in s.rooms[q].doc && Secured(s, q, u) ensures q in s'.rooms && Secured(s', q, u) {
      if q == r {
        assert s'.rooms[r].saveArmed || Secures(s'.tasks[d.task.key], r, u);
      } else if !s.rooms[q].saveArmed {
        var t :| t in s.tasks && Secures(s.tasks[t], q, u);
        assert t in s'.tasks && Secures(s'.tasks[t], q, u);
      }
    }
  }

  lemma SaveStores(s: State, step: Step)
    requires Enabled(s, step) && step.OfDeparture? && step.departure.Save? && !LossySave(s, step)
    ensures KeepsSecured(s, DeltaOf(s, step))
  {
    var s', done := Next(s, step), step.departure.t;
    forall r, u | r in s.rooms && u in s.rooms[r].doc && Secured(s, r, u)
      ensures u in Lookedup(s'.store, s.rooms[r].name) || (r in s'.rooms && Secured(s', r, u))
    {
      if !s.rooms[r].saveArmed {
        var t :| t in s.tasks && Secures(s.tasks[t], r, u);
        if t != done { assert t in s'.tasks && Secures(s'.tasks[t], r, u); }
      }
    }
  }

  lemma SocketKeeps(s: State, step: SocketStep)
    requires SocketEnabled(s, step)
    ensures KeepsSecured(s, SocketDelta(s, step))
  {
    NoneGoes(s, SocketDelta(s, step));
  }

  lemma LoadKeeps(s: State, d: Delta)
    requires LoadShaped(s, d)
    ensures KeepsSecured(s, d)
  {
    NoneGoes(s, d);
  }

  lemma AdmissionKeeps(s: State, step: AdmissionStep)
    requires WellFormed(s) && AdmissionEnabled(s, step)
    ensures KeepsSecured(s, AdmissionDelta(s, step))
  {
    assert ConnOk(s.rooms, s.conns[step.c]);
    NoneGoes(s, AdmissionDelta(s, step));
  }

  lemma SaveKeeps(s: State, step: SaveStep)
    requires SaveEnabled(s, step)
    ensures KeepsSecured(s, SaveDelta(s, step))
  {
    GoesOn(s, SaveDelta(s, step), if step.TimerFires? then step.r else s.registry[step.n]);
  }

  lemma DepartureKeeps(s: State, step: DepartureStep)
    requires DepartureEnabled(s, step) && !step.Save?
    ensures KeepsSecured(s, DepartureDelta(s, step))
  {
    if step.Disarm? || step.Encode? {
      GoesOn(s, DepartureDelta(s, step), s.tasks[step.t].room);
    } else {
      NoneGoes(s, DepartureDelta(s, step));
    }
  }

  lemma HandlerKeeps(s: State, step: HandlerStep)
    requires HandlerEnabled(s, step)
    ensures KeepsSecured(s, HandlerDelta(s, step))
  {
    if step.Arm? {
      GoesOn(s, HandlerDelta(s, step), s.tasks[step.t].room);
    } else {
      NoneGoes(s, HandlerDelta(s, step));
    }
  }

  /** What a handler applies is in the room's document, with the handler about to arm the timer. */
  lemma ApplyLosesNothing(s: State, t: TaskId)
    requires NothingLost(s) && HandlerEnabled(s, Apply(t)) && HandlerDelta(s, Apply(t)).written.Put?
    ensures NothingLost(Commit(s, HandlerDelta(s, Apply(t))))
  {
    var d := HandlerDelta(s, Apply(t));
    var s', r := Commit(s, d), s.tasks[t].room;
    HandlerKeeps(s, Apply(t));
    forall n, u | u in Lookedup(s'.written, n) ensures u in Lookedup(s'.store, n) || OnItsWay(s', n, u) {
      if u in Lookedup(s.written, n) {
        StillSafe(s, d, n, u);
      } else {
        assert Secures(s'.tasks[t], r, u) && Holds(s'.rooms[r], n, u);
      }
    }
  }

  lemma NothingLostStep(s: State, step: Step)
    requires WellFormed(s) && NothingLost(s) && Enabled(s, step) && !LossySave(s, step)
    ensures NothingLost(Next(s, step))
  {
    hide NothingLost, KeepsSecured, Secured;
    match step {
      case OfSocket(x) => SocketKeeps(s, x);
      case OfLoad(x) => LoadShape(s, x); LoadKeeps(s, LoadDelta(s, x));
      case OfAdmission(x) => AdmissionKeeps(s, x);
      case OfSave(x) => SaveKeeps(s, x);
      case OfDeparture(x) => if x.Save? { SaveStores(s, step); } else { DepartureKeeps(s, x); }
      case OfHandler(x) => if x.Apply? && DeltaOf(s, step).written.Put? { ApplyLosesNothing(s, x.t); return; }
                           HandlerKeeps(s, x);
    }
    OnlyApplyWrites(s, step);
    SecuredKeeps(s, DeltaOf(s, step));
  }

  lemma OnlyApplyWrites(s: State, step: Step)
    requires WellFormed(s) && Enabled(s, step)
    ensures DeltaOf(s, step).written.Keep? || (step.OfHandler? && step.handler.Apply?)
  {
    if step.OfLoad? { LoadShape(s, step.load); }
  }

  ghost predicate NoLossySave(s: State, steps: seq<Step>)
    requires CanRun(s, steps)
    decreases |steps|
  {
    steps == [] || (!LossySave(s, steps[0]) && NoLossySave(Next(s, steps[0]), steps[1..]))
  }

  lemma {:induction false} NothingLostRun(s: State, steps: seq<Step>)
    requires WellFormed(s) && NothingLost(s) && CanRun(s, steps) && NoLossySave(s, steps)
    ensures WellFormed(Run(s, steps)) && NothingLost(Run(s, steps))
    decreases |steps|
  {
    if steps != [] {
      WellFormedStep(s, steps[0]);
      NothingLostStep(s, steps[0]);
      NothingLostRun(Next(s, steps[0]), steps[1..]);
    }
  }

  /** However the sections interleave: if every save succeeds and none overwrites more than it holds, each update ever
  accepted for a name is stored, or in a room of that name whose save is armed or under way. */
  lemma NoUpdateLost(store: map<Name, set<Update>>, steps: seq<Step>, n: Name, u: Update)
    requires CanRun(Init(store), steps) && NoLossySave(Init(store), steps)
    requires u in Lookedup(Run(Init(store), steps).written, n)
    ensures var s := Run(Init(store), steps);
            || u in Lookedup(s.store, n)
            || exists r :: r in s.rooms && s.rooms[r].name == n && u in s.rooms[r].doc &&
                 (s.rooms[r].saveArmed || exists t :: t in s.tasks && Secures(s.tasks[t], r, u))
  {
    NothingLostRun(Init(store), steps);
    var s := Run(Init(store), steps);
    if u !in Lookedup(s.store, n) {
      var r :| r in s.rooms && Holds(s.rooms[r], n, u) && Secured(s, r, u);
    }
  }

  /** With no save armed or under way for a name, the store holds every update ever accepted for it. */
  lemma SettledIsStored(store: map<Name, set<Update>>, steps: seq<Step>, n: Name)
    requires CanRun(Init(store), steps) && NoLossySave(Init(store), steps)
    requires var s := Run(Init(store), steps);
             forall r :: r in s.rooms && s.rooms[r].name == n ==>
               !s.rooms[r].saveArmed &&
               forall t :: t in s.tasks && s.tasks[t].room == r ==>
                 !s.tasks[t].Applied? && !s.tasks[t].Flushing? && !s.tasks[t].Encoding? && !s.tasks[t].Saving?
    ensures var s := Run(Init(store), steps); Lookedup(s.written, n) <= Lookedup(s.store, n)
  {
    forall u | u in Lookedup(Run(Init(store), steps).written, n)
      ensures u in Lookedup(Run(Init(store), steps).store, n)
    {
      NoUpdateLost(store, steps, n, u);
    }
  }
}
