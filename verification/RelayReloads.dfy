/** Whether a room that is registered holds everything stored under its name. */
module RelayReloads {
  import opened Wrappers
  import opened Relay
  import opened RelayMembership
  import opened RelaySeedRuns

  ghost predicate CaughtUp(s: State) { forall n :: NameCaughtUp(s, n) }

  ghost predicate NameCaughtUp(s: State, n: Name) {
    n in s.registry && s.registry[n] in s.rooms ==> Lookedup(s.store, n) <= s.rooms[s.registry[n]].doc
  }

  /** A room is registered with a snapshot that has since been overtaken: another room of that name was loaded, edited,
  saved and forgotten between this loader's two looks. */
  ghost predicate StaleInstall(s: State, step: Step)
    requires Enabled(s, step)
  {
    step.OfLoad? && step.load.Install? &&
    var Loaded(n, snapshot) := s.conns[step.load.c].admission;
    n !in s.registry && |s.registry| < MAX_ROOMS && !(Lookedup(s.store, n) <= snapshot)
  }

  /** A forgotten room stores what the room registered in its place does not have. */
  ghost predicate BelatedSave(s: State, step: Step)
    requires Enabled(s, step)
  {
    step.OfDeparture? && step.departure.Save? && step.departure.ok &&
    var task := s.tasks[step.departure.t];
    var n := s.rooms[task.room].name;
    n in s.registry && s.registry[n] in s.rooms && s.registry[n] != task.room &&
    !(task.snapshot <= s.rooms[s.registry[n]].doc)
  }

  ghost predicate FallsBehind(s: State, step: Step)
    requires Enabled(s, step)
  {
    StaleInstall(s, step) || BelatedSave(s, step)
  }

  /** What is about to be stored for a room is in its document. */
  ghost predicate SnapshotsHeld(s: State) {
    forall t :: t in s.tasks && s.tasks[t].Saving? && s.tasks[t].room in s.rooms ==>
      s.tasks[t].snapshot <= s.rooms[s.tasks[t].room].doc
  }

  lemma LookupCatchesUp(s: State, c: Sock, n: Name, miss: Delta)
    requires WellFormed(s) && c in s.conns && (n in s.registry || |s.registry| >= MAX_ROOMS)
    requires CaughtUp(s) && SnapshotsHeld(s)
    ensures CaughtUp(Commit(s, LookupDelta(s, c, n, miss))) && SnapshotsHeld(Commit(s, LookupDelta(s, c, n, miss)))
  {
    forall m ensures NameCaughtUp(Commit(s, LookupDelta(s, c, n, miss)), m) { assert NameCaughtUp(s, m); }
  }

  lemma InstallCatchesUp(s: State, c: Sock, newId: RoomId)
    requires WellFormed(s) && LoadEnabled(s, Install(c, newId)) && CaughtUp(s) && SnapshotsHeld(s)
    ensures var step := OfLoad(Install(c, newId)); CaughtUp(Next(s, step)) <==> !StaleInstall(s, step)
    ensures SnapshotsHeld(Next(s, OfLoad(Install(c, newId))))
  {
    var Loaded(n, snapshot) := s.conns[c].admission;
    var s' := Next(s, OfLoad(Install(c, newId)));
    if n in s.registry || |s.registry| >= MAX_ROOMS {
      LookupCatchesUp(s, c, n, NOTHING.(room := Put(newId, NewRoom(n, snapshot)), registry := Put(n, newId),
                                        conn := Put(c, s.conns[c].(admission := Reserved(newId)))));
    } else {
      assert s'.rooms[newId].doc == snapshot && s'.registry[n] == newId;
      assert NameCaughtUp(s', n) <==> !StaleInstall(s, OfLoad(Install(c, newId)));
      forall m | m != n ensures NameCaughtUp(s', m) { assert NameCaughtUp(s, m); }
    }
  }

  lemma EarlyLoadCatchesUp(s: State, step: LoadStep)
    requires WellFormed(s) && LoadEnabled(s, step) && !step.Install? && CaughtUp(s) && SnapshotsHeld(s)
    ensures CaughtUp(Next(s, OfLoad(step))) && SnapshotsHeld(Next(s, OfLoad(step)))
  {
    var d := LoadDelta(s, step);
    LoadShape(s, step);
    NoEarlyRoom(s, step);
    HarmlessKeeps(s, d);
  }

  lemma NoEarlyRoom(s: State, step: LoadStep)
    requires WellFormed(s) && LoadEnabled(s, step) && !step.Install?
    ensures LoadDelta(s, step).registry.Keep?
    ensures LoadDelta(s, step).room.Put? ==> LoadDelta(s, step).room.key in s.rooms
  {
  }

  lemma LoadCatchesUp(s: State, step: LoadStep)
    requires WellFormed(s) && LoadEnabled(s, step) && CaughtUp(s) && SnapshotsHeld(s)
    ensures CaughtUp(Next(s, OfLoad(step))) <==> !StaleInstall(s, OfLoad(step))
    ensures SnapshotsHeld(Next(s, OfLoad(step)))
  {
    hide CaughtUp, SnapshotsHeld, WellFormed, LoadEnabled, LoadDelta;
    if step.Install? { InstallCatchesUp(s, step.c, step.newId); } else { EarlyLoadCatchesUp(s, step); }
  }

  lemma SaveCatchesUp(s: State, t: TaskId, ok: bool)
    requires WellFormed(s) && DepartureEnabled(s, Save(t, ok)) && CaughtUp(s) && SnapshotsHeld(s)
    ensures var step := OfDeparture(Save(t, ok)); CaughtUp(Next(s, step)) <==> !BelatedSave(s, step)
    ensures SnapshotsHeld(Next(s, OfDeparture(Save(t, ok))))
  {
    var s', n := Next(s, OfDeparture(Save(t, ok))), s.rooms[s.tasks[t].room].name;
    if ok { assert NameCaughtUp(s', n) <==> !BelatedSave(s, OfDeparture(Save(t, ok))); }
    forall m | m != n || !ok ensures NameCaughtUp(s', m) { assert NameCaughtUp(s, m); }
  }

  /** Nothing is stored or registered, and documents keep what they have. */
  ghost predicate Harmless(s: State, d: Delta) {
    && d.store.Keep? && !d.registry.Put? && !d.room.Remove?
    && (d.room.Put? ==> d.room.key in s.rooms && s.rooms[d.room.key].doc <= d.room.value.doc)
    && (d.task.Put? && d.task.value.Saving? ==>
          d.room.Keep? && d.task.value.room in s.rooms && d.task.value.snapshot == s.rooms[d.task.value.room].doc)
  }

  lemma HarmlessKeeps(s: State, d: Delta)
    requires WellFormed(s) && Harmless(s, d) && CaughtUp(s) && SnapshotsHeld(s)
    ensures CaughtUp(Commit(s, d)) && SnapshotsHeld(Commit(s, d))
  {
    var s' := Commit(s, d);
    forall n ensures NameCaughtUp(s', n) { assert NameCaughtUp(s, n); }
    forall t | t in s'.tasks && s'.tasks[t].Saving? && s'.tasks[t].room in s'.rooms
      ensures s'.tasks[t].snapshot <= s'.rooms[s'.tasks[t].room].doc
    {
      if t in s.tasks { assert TaskOk(s, s.tasks[t]); }
    }
  }

  lemma AdmissionIsHarmless(s: State, x: AdmissionStep)
    requires AdmissionEnabled(s, x)
    ensures Harmless(s, AdmissionDelta(s, x))
  {
  }

  lemma DepartureIsHarmless(s: State, x: DepartureStep)
    requires DepartureEnabled(s, x) && !x.Save?
    ensures Harmless(s, DepartureDelta(s, x))
  {
  }

  lemma HandlerIsHarmless(s: State, x: HandlerStep)
    requires HandlerEnabled(s, x)
    ensures Harmless(s, HandlerDelta(s, x))
  {
  }

  lemma StepIsHarmless(s: State, step: Step)
    requires Enabled(s, step) && !step.OfLoad?
    requires step.OfDeparture? ==> !step.departure.Save?
    ensures Harmless(s, DeltaOf(s, step)) && !FallsBehind(s, step)
  {
    match step
    case OfAdmission(x) => AdmissionIsHarmless(s, x);
    case OfDeparture(x) => DepartureIsHarmless(s, x);
    case OfHandler(x) => HandlerIsHarmless(s, x);
    case _ =>
  }

  /** A section keeps every registered room holding what is stored under its name exactly when it neither registers a
  stale snapshot nor stores what a forgotten room alone has. */
  lemma CaughtUpIff(s: State, step: Step)
    requires WellFormed(s) && Enabled(s, step) && CaughtUp(s) && SnapshotsHeld(s)
    ensures CaughtUp(Next(s, step)) <==> !FallsBehind(s, step)
    ensures SnapshotsHeld(Next(s, step))
  {
    if step.OfLoad? {
      LoadCatchesUp(s, step.load);
    } else if step.OfDeparture? && step.departure.Save? {
      SaveCatchesUp(s, step.departure.t, step.departure.ok);
    } else {
      StepIsHarmless(s, step);
      HarmlessKeeps(s, DeltaOf(s, step));
    }
  }

  ghost predicate NeverFallsBehind(s: State, steps: seq<Step>)
    requires CanRun(s, steps)
    decreases |steps|
  {
    steps == [] || (!FallsBehind(s, steps[0]) && NeverFallsBehind(Next(s, steps[0]), steps[1..]))
  }

  ghost predicate CaughtUpThroughout(s: State, steps: seq<Step>)
    requires CanRun(s, steps)
    decreases |steps|
  {
    CaughtUp(s) && (steps != [] ==> CaughtUpThroughout(Next(s, steps[0]), steps[1..]))
  }

  lemma {:induction false} CaughtUpFrom(s: State, steps: seq<Step>)
    requires WellFormed(s) && CaughtUp(s) && SnapshotsHeld(s) && CanRun(s, steps)
    ensures CaughtUpThroughout(s, steps) <==> NeverFallsBehind(s, steps)
    decreases |steps|
  {
    if steps != [] {
      WellFormedStep(s, steps[0]);
      CaughtUpIff(s, steps[0]);
      if CaughtUp(Next(s, steps[0])) { CaughtUpFrom(Next(s, steps[0]), steps[1..]); }
    }
  }

  /** All along a run every registered room holds what is stored under its name if and only if no stale snapshot is
  registered and no forgotten room stores what the registered one does not have. */
  lemma CaughtUpExactly(store: map<Name, set<Update>>, steps: seq<Step>)
    requires CanRun(Init(store), steps)
    ensures CaughtUpThroughout(Init(store), steps) <==> NeverFallsBehind(Init(store), steps)
  {
    CaughtUpFrom(Init(store), steps);
  }

  // ---- A stale snapshot is registered ----

  /** Connection 1 has loaded the empty snapshot before connection 0 asks for the room. */
  const LOADED_FIRST := NEW_CONN.(admission := Loaded("d", {}))

  function Scene(room: Room, k: Conn, task: Option<Task>): State {
    State(map["d" := 7], map[7 := room], map[1 := LOADED_FIRST, 0 := k],
          if task.Some? then map[0 := task.value] else map[], map[],
          if room.doc == {} then map[] else map["d" := room.doc])
  }

  const EDITED := ROOM.(pending := 0, sockets := {0}, seeder := Some(0), granted := {0}, doc := {9}, saveArmed := true)
  const SEEDED := ROOM.(pending := 0, sockets := {0}, seeder := Some(0), granted := {0})
  const EMPTIED := EDITED.(sockets := {}, seeder := None, saveArmed := false)

  const IN_ROOM := NEW_CONN.(phase := Open, room := Some(7), canWrite := true, encoded := Some({}),
                             admission := Replaying([]))

  const WROTE := IN_ROOM.(authored := {9})

  const BEFORE_ROOM := Init(map[]).(conns := map[1 := LOADED_FIRST, 0 := NEW_CONN.(admission := LookingUp("d"))])

  const FORGOTTEN := State(map[], map[7 := EMPTIED], map[1 := LOADED_FIRST, 0 := Left(WROTE)], map[],
                           map["d" := {9}], map["d" := {9}])

  const ASKS := [OfSocket(Accept(1)), OfLoad(Begin(1, "d")), OfLoad(Lookup(1))] +
                [OfLoad(Load(1)), OfSocket(Accept(0)), OfLoad(Begin(0, "d"))]
  const LOADS := [OfLoad(Lookup(0)), OfLoad(Load(0)), OfLoad(Install(0, 7))]
  const ENTERS := [OfAdmission(Publish(0, true)), OfAdmission(Register(0)), OfAdmission(CheckOpen(0, 0))]
  const OPENS := [OfAdmission(Decide(0)), OfAdmission(SendState(0)), OfAdmission(GoOpen(0))]
  const EDITS := [OfSocket(Dispatch(0, Doc({9}), 0)), OfHandler(Apply(0)), OfHandler(Arm(0))]
  const ENDS := [OfHandler(Gather(0)), OfHandler(Finish(0)), OfSocket(SocketCloses(0))]
  const DEPARTS := [OfSocket(OnClose(0, 0)), OfDeparture(Drop(0, 0)), OfDeparture(Disarm(0))]
  const SAVES := [OfDeparture(Encode(0)), OfDeparture(Save(0, true)), OfDeparture(Forget(0))]

  /** All of connection 0's stay falls between the two looks of connection 1. */
  const STALE_RUN := ASKS + (LOADS + ENTERS + OPENS + EDITS) + (ENDS + DEPARTS + SAVES) + [OfLoad(Install(1, 8))]

  lemma ThreeSteps(s: State, steps: seq<Step>, s1: State, s2: State, s3: State)
    requires |steps| == 3 && Enabled(s, steps[0]) && Next(s, steps[0]) == s1
    requires Enabled(s1, steps[1]) && Next(s1, steps[1]) == s2 && Enabled(s2, steps[2]) && Next(s2, steps[2]) == s3
    ensures Leads(s, steps, s3)
  {
    assert steps == [steps[0], steps[1], steps[2]];
    LeadsThree(s, steps[0], s1, steps[1], s2, steps[2], s3);
  }

  lemma AsksLeads()
    ensures Leads(Init(map[]), ASKS, BEFORE_ROOM)
  {
    var s := Init(map[]);
    var s3 := s.(conns := map[1 := NEW_CONN.(admission := Loading("d"))]);
    ThreeSteps(s, ASKS[..3], s.(conns := map[1 := NEW_CONN]),
               s.(conns := map[1 := NEW_CONN.(admission := LookingUp("d"))]), s3);
    ThreeSteps(s3, ASKS[3..], s.(conns := map[1 := LOADED_FIRST]), s.(conns := map[1 := LOADED_FIRST, 0 := NEW_CONN]),
               BEFORE_ROOM);
    LeadsOn(s, ASKS[..3], s3, ASKS[3..], BEFORE_ROOM);
  }

  lemma LoadsRoom()
    ensures Leads(BEFORE_ROOM, LOADS, Scene(ROOM, NEW_CONN.(admission := Reserved(7)), None))
  {
    var s := BEFORE_ROOM;
    ThreeSteps(s, LOADS, s.(conns := s.conns[0 := NEW_CONN.(admission := Loading("d"))]),
               s.(conns := s.conns[0 := NEW_CONN.(admission := Loaded("d", {}))]),
               Scene(ROOM, NEW_CONN.(admission := Reserved(7)), None));
  }

  lemma EntersLeads()
    ensures Leads(Scene(ROOM, NEW_CONN.(admission := Reserved(7)), None), ENTERS,
                  Scene(Join(ROOM, 0), Joined(true), None))
  {
    ThreeSteps(Scene(ROOM, NEW_CONN.(admission := Reserved(7)), None), ENTERS,
               Scene(ROOM, Joined(true).(admission := Published(7)), None),
               Scene(Join(ROOM, 0), Joined(true).(admission := Registered(7)), None),
               Scene(Join(ROOM, 0), Joined(true), None));
  }

  lemma OpensLeads()
    ensures Leads(Scene(Join(ROOM, 0), Joined(true), None), OPENS, Scene(SEEDED, IN_ROOM, None))
  {
    assert DecideSeed(Join(ROOM, 0), 0) == SEEDED;
    var sending := Scene(SEEDED, Past(Joined(true)), None);
    assert Past(Joined(true)).sent + {} == {};
    assert Next(sending, OPENS[1]) == Scene(SEEDED, Past(Joined(true)).(admission := StateSent(7)), None);
    assert Next(Scene(Join(ROOM, 0), Joined(true), None), OPENS[0]) == Scene(SEEDED, Past(Joined(true)), None);
    ThreeSteps(Scene(Join(ROOM, 0), Joined(true), None), OPENS, Scene(SEEDED, Past(Joined(true)), None),
               Scene(SEEDED, Past(Joined(true)).(admission := StateSent(7)), None), Scene(SEEDED, IN_ROOM, None));
  }

  lemma EditsLeads()
    ensures Leads(Scene(SEEDED, IN_ROOM, None), EDITS, Scene(EDITED, WROTE, Some(Gathering(0, 7, {9}))))
  {
    assert ApplyUpdates(SEEDED, {9}) == EDITED.(saveArmed := false) && {} + {9} == {9};
    assert Next(Scene(SEEDED, IN_ROOM, Some(Arriving(0, 7, Doc({9})))), EDITS[1]) ==
           Scene(EDITED.(saveArmed := false), WROTE, Some(Applied(0, 7, {9})));
    ThreeSteps(Scene(SEEDED, IN_ROOM, None), EDITS, Scene(SEEDED, IN_ROOM, Some(Arriving(0, 7, Doc({9})))),
               Scene(EDITED.(saveArmed := false), WROTE, Some(Applied(0, 7, {9}))),
               Scene(EDITED, WROTE, Some(Gathering(0, 7, {9}))));
  }

  lemma EndsLeads()
    ensures Leads(Scene(EDITED, WROTE, Some(Gathering(0, 7, {9}))), ENDS, Scene(EDITED, WROTE.(isOpen := false), None))
  {
    assert EDITED.sockets - {0} == {};
    assert Next(Scene(EDITED, WROTE, Some(Gathering(0, 7, {9}))), ENDS[0]) ==
           Scene(EDITED, WROTE, Some(Fanning(0, 7, {9}, {})));
    ThreeSteps(Scene(EDITED, WROTE, Some(Gathering(0, 7, {9}))), ENDS,
               Scene(EDITED, WROTE, Some(Fanning(0, 7, {9}, {}))), Scene(EDITED, WROTE, None),
               Scene(EDITED, WROTE.(isOpen := false), None));
  }

  lemma DepartsLeads()
    ensures Leads(Scene(EDITED, WROTE.(isOpen := false), None), DEPARTS,
                  Scene(EMPTIED, Left(WROTE), Some(Encoding(7, true))))
  {
    ThreeSteps(Scene(EDITED, WROTE.(isOpen := false), None), DEPARTS,
               Scene(EDITED, Left(WROTE), Some(Dropping(0, 7))),
               Scene(EMPTIED.(saveArmed := true), Left(WROTE), Some(Flushing(7))),
               Scene(EMPTIED, Left(WROTE), Some(Encoding(7, true))));
  }

  lemma SavesLeads()
    ensures Leads(Scene(EMPTIED, Left(WROTE), Some(Encoding(7, true))), SAVES, FORGOTTEN)
  {
    var s := Scene(EMPTIED, Left(WROTE), None).(store := map["d" := {9}]);
    ThreeSteps(Scene(EMPTIED, Left(WROTE), Some(Encoding(7, true))), SAVES,
               Scene(EMPTIED, Left(WROTE), Some(Saving(7, true, {9}))), s.(tasks := map[0 := Forgetting(7)]),
               FORGOTTEN);
  }

  lemma EntryLeads()
    ensures Leads(BEFORE_ROOM, LOADS + ENTERS + OPENS + EDITS, Scene(EDITED, WROTE, Some(Gathering(0, 7, {9}))))
  {
    hide Leads, Scene;
    LoadsRoom();
    EntersLeads();
    OpensLeads();
    EditsLeads();
    var loaded := Scene(ROOM, NEW_CONN.(admission := Reserved(7)), None);
    LeadsOn(BEFORE_ROOM, LOADS, loaded, ENTERS, Scene(Join(ROOM, 0), Joined(true), None));
    LeadsOn(BEFORE_ROOM, LOADS + ENTERS, Scene(Join(ROOM, 0), Joined(true), None), OPENS, Scene(SEEDED, IN_ROOM, None));
    LeadsOn(BEFORE_ROOM, LOADS + ENTERS + OPENS, Scene(SEEDED, IN_ROOM, None), EDITS,
            Scene(EDITED, WROTE, Some(Gathering(0, 7, {9}))));
  }

  lemma ExitLeads()
    ensures Leads(Scene(EDITED, WROTE, Some(Gathering(0, 7, {9}))), ENDS + DEPARTS + SAVES, FORGOTTEN)
  {
    hide Leads, Scene;
    EndsLeads();
    DepartsLeads();
    SavesLeads();
    var s := Scene(EDITED, WROTE, Some(Gathering(0, 7, {9})));
    LeadsOn(s, ENDS, Scene(EDITED, WROTE.(isOpen := false), None), DEPARTS,
            Scene(EMPTIED, Left(WROTE), Some(Encoding(7, true))));
    LeadsOn(s, ENDS + DEPARTS, Scene(EMPTIED, Left(WROTE), Some(Encoding(7, true))), SAVES, FORGOTTEN);
  }

  const STALE_WORLD := FORGOTTEN.(registry := map["d" := 8], rooms := map[7 := EMPTIED, 8 := ROOM],
                                  conns := FORGOTTEN.conns[1 := NEW_CONN.(admission := Reserved(8))])

  lemma StaleRunLeads()
    ensures Leads(Init(map[]), STALE_RUN, STALE_WORLD)
  {
    AsksLeads();
    EntryLeads();
    ExitLeads();
    var edited := Scene(EDITED, WROTE, Some(Gathering(0, 7, {9})));
    LeadsOne(FORGOTTEN, OfLoad(Install(1, 8)), STALE_WORLD);
    hide Leads;
    LeadsOn(Init(map[]), ASKS, BEFORE_ROOM, LOADS + ENTERS + OPENS + EDITS, edited);
    LeadsOn(Init(map[]), ASKS + (LOADS + ENTERS + OPENS + EDITS), edited, ENDS + DEPARTS + SAVES, FORGOTTEN);
    LeadsOn(Init(map[]), ASKS + (LOADS + ENTERS + OPENS + EDITS) + (ENDS + DEPARTS + SAVES), FORGOTTEN,
            [OfLoad(Install(1, 8))], STALE_WORLD);
  }

  /** The second look does not see that the room was loaded, edited, saved and forgotten since the first one: the room
  registered under the name is empty, although the store holds an update. */
  lemma StaleSnapshotIsServed()
    ensures CanRun(Init(map[]), STALE_RUN)
    ensures var s := Run(Init(map[]), STALE_RUN);
            && "d" in s.registry && s.registry["d"] in s.rooms && s.rooms[s.registry["d"]].doc == {}
            && Lookedup(s.store, "d") == {9} && !CaughtUp(s)
  {
    StaleRunLeads();
    assert !NameCaughtUp(STALE_WORLD, "d");
  }
}
