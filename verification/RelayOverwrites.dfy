/** A save that is overtaken by a newer one and then stores its older snapshot loses an update. */
module RelayOverwrites {
  import opened Wrappers
  import opened Relay
  import opened RelayMembership
  import opened RelaySeedRuns
  import opened RelayReloads
  import opened RelayDurability

  function Stage(room: Room, k: Conn, tasks: map<TaskId, Task>, store: map<Name, set<Update>>): State {
    State(map["d" := 7], map[7 := room], map[1 := LOADED_FIRST, 0 := k], tasks, store, map["d" := room.doc])
  }

  /** The first save has its snapshot; it is written last. */
  const SLOW := Saving(7, false, {9})

  const SAVED_ONCE := EDITED.(saveArmed := false)
  const EDITED_TWICE := EDITED.(doc := {8, 9})
  const LEFT_ALONE := EDITED_TWICE.(sockets := {}, seeder := None, saveArmed := false)
  const WROTE_TWICE := IN_ROOM.(authored := {8, 9})

  const LOST := State(map[], map[7 := LEFT_ALONE], map[1 := LOADED_FIRST, 0 := Left(WROTE_TWICE)], map[],
                      map["d" := {9}], map["d" := {8, 9}])

  const STARTS_SLOW := [OfHandler(Gather(0)), OfHandler(Finish(0)), OfSave(TimerFires(7, 1))] +
                       [OfDeparture(Encode(1)), OfSocket(Dispatch(0, Doc({8}), 0)), OfHandler(Apply(0))]
  const EDITS_AGAIN := [OfHandler(Arm(0)), OfHandler(Gather(0)), OfHandler(Finish(0))] +
                       [OfSocket(SocketCloses(0)), OfSocket(OnClose(0, 0)), OfDeparture(Drop(0, 0))]
  const OVERTAKES := [OfDeparture(Disarm(0)), OfDeparture(Encode(0)), OfDeparture(Save(0, true))]
  const COMES_LAST := [OfDeparture(Save(1, true)), OfDeparture(Forget(0))]

  /** The timer's save is still writing when the last member edits once more, leaves, and has the room flushed. */
  const OVERWRITING_RUN :=
    ASKS + (LOADS + ENTERS + OPENS + EDITS) + (STARTS_SLOW + EDITS_AGAIN + (OVERTAKES + COMES_LAST))

  const TASK_ONE := map[1 := SLOW]

  const STARTED := Stage(SAVED_ONCE, WROTE, map[1 := Encoding(7, false)], map[])
  const APPLIED :=
    Stage(EDITED_TWICE.(saveArmed := false), WROTE_TWICE, map[1 := SLOW, 0 := Applied(0, 7, {8})], map[])
  const FANNED := Stage(EDITED_TWICE, WROTE_TWICE, TASK_ONE, map[])
  const CLOSED := Stage(EDITED_TWICE, Left(WROTE_TWICE), map[1 := SLOW, 0 := Dropping(0, 7)], map[])
  const FLUSHING :=
    Stage(LEFT_ALONE.(saveArmed := true), Left(WROTE_TWICE), map[1 := SLOW, 0 := Flushing(7)], map[])
  const OVERTAKEN := Stage(LEFT_ALONE, Left(WROTE_TWICE), map[1 := SLOW, 0 := Forgetting(7)], map["d" := {8, 9}])

  lemma StartsSave()
    ensures Leads(Scene(EDITED, WROTE, Some(Gathering(0, 7, {9}))), STARTS_SLOW[..3], STARTED)
  {
    var s := Scene(EDITED, WROTE, Some(Gathering(0, 7, {9})));
    assert EDITED.sockets - {0} == {};
    assert Next(s, STARTS_SLOW[0]) == Stage(EDITED, WROTE, map[0 := Fanning(0, 7, {9}, {})], map[]);
    ThreeSteps(s, STARTS_SLOW[..3], Stage(EDITED, WROTE, map[0 := Fanning(0, 7, {9}, {})], map[]),
               Stage(EDITED, WROTE, map[], map[]), STARTED);
  }

  lemma SecondEditArrives()
    ensures Leads(STARTED, [STARTS_SLOW[3], STARTS_SLOW[4]],
                  Stage(SAVED_ONCE, WROTE, map[1 := SLOW, 0 := Arriving(0, 7, Doc({8}))], map[]))
  {
    LeadsTwo(STARTED, STARTS_SLOW[3], Stage(SAVED_ONCE, WROTE, TASK_ONE, map[]), STARTS_SLOW[4],
             Stage(SAVED_ONCE, WROTE, map[1 := SLOW, 0 := Arriving(0, 7, Doc({8}))], map[]));
  }

  lemma SecondEditApplies()
    ensures Leads(Stage(SAVED_ONCE, WROTE, map[1 := SLOW, 0 := Arriving(0, 7, Doc({8}))], map[]), [STARTS_SLOW[5]],
                  APPLIED)
  {
    var arriving := Stage(SAVED_ONCE, WROTE, map[1 := SLOW, 0 := Arriving(0, 7, Doc({8}))], map[]);
    assert {9} + {8} == {8, 9} && ApplyUpdates(SAVED_ONCE, {8}) == EDITED_TWICE.(saveArmed := false);
    LeadsOne(arriving, STARTS_SLOW[5], APPLIED);
  }

  lemma StartsSlow()
    ensures Leads(Scene(EDITED, WROTE, Some(Gathering(0, 7, {9}))), STARTS_SLOW, APPLIED)
  {
    hide Leads, Scene, Stage;
    StartsSave();
    SecondEditArrives();
    SecondEditApplies();
    var s := Scene(EDITED, WROTE, Some(Gathering(0, 7, {9})));
    LeadsOn(STARTED, [STARTS_SLOW[3], STARTS_SLOW[4]],
            Stage(SAVED_ONCE, WROTE, map[1 := SLOW, 0 := Arriving(0, 7, Doc({8}))], map[]), [STARTS_SLOW[5]], APPLIED);
    assert STARTS_SLOW == STARTS_SLOW[..3] + ([STARTS_SLOW[3], STARTS_SLOW[4]] + [STARTS_SLOW[5]]);
    LeadsOn(s, STARTS_SLOW[..3], STARTED, [STARTS_SLOW[3], STARTS_SLOW[4]] + [STARTS_SLOW[5]], APPLIED);
  }

  lemma SecondEditFans()
    ensures Leads(APPLIED, EDITS_AGAIN[..3], FANNED)
  {
    var gathering := Stage(EDITED_TWICE, WROTE_TWICE, map[1 := SLOW, 0 := Gathering(0, 7, {8})], map[]);
    var fanning := Stage(EDITED_TWICE, WROTE_TWICE, map[1 := SLOW, 0 := Fanning(0, 7, {8}, {})], map[]);
    assert EDITED_TWICE.sockets - {0} == {};
    assert Next(gathering, EDITS_AGAIN[1]) == fanning;
    ThreeSteps(APPLIED, EDITS_AGAIN[..3], gathering, fanning, FANNED);
  }

  lemma Closes()
    ensures Leads(FANNED, [EDITS_AGAIN[3], EDITS_AGAIN[4]], CLOSED)
  {
    LeadsTwo(FANNED, EDITS_AGAIN[3], Stage(EDITED_TWICE, WROTE_TWICE.(isOpen := false), TASK_ONE, map[]),
             EDITS_AGAIN[4], CLOSED);
  }

  lemma Drops()
    ensures Leads(CLOSED, [EDITS_AGAIN[5]], FLUSHING)
  {
    assert Leave(EDITED_TWICE, 0, 0) == LEFT_ALONE.(saveArmed := true);
    LeadsOne(CLOSED, EDITS_AGAIN[5], FLUSHING);
  }

  lemma EditsAgain()
    ensures Leads(APPLIED, EDITS_AGAIN, FLUSHING)
  {
    hide Leads, Stage;
    SecondEditFans();
    Closes();
    Drops();
    LeadsOn(FANNED, [EDITS_AGAIN[3], EDITS_AGAIN[4]], CLOSED, [EDITS_AGAIN[5]], FLUSHING);
    assert EDITS_AGAIN == EDITS_AGAIN[..3] + ([EDITS_AGAIN[3], EDITS_AGAIN[4]] + [EDITS_AGAIN[5]]);
    LeadsOn(APPLIED, EDITS_AGAIN[..3], FANNED, [EDITS_AGAIN[3], EDITS_AGAIN[4]] + [EDITS_AGAIN[5]], FLUSHING);
  }

  lemma Overtakes()
    ensures Leads(FLUSHING, OVERTAKES, OVERTAKEN)
  {
    ThreeSteps(FLUSHING, OVERTAKES,
               Stage(LEFT_ALONE, Left(WROTE_TWICE), map[1 := SLOW, 0 := Encoding(7, true)], map[]),
               Stage(LEFT_ALONE, Left(WROTE_TWICE), map[1 := SLOW, 0 := Saving(7, true, {8, 9})], map[]), OVERTAKEN);
  }

  lemma ComesLast()
    ensures Leads(OVERTAKEN, COMES_LAST, LOST)
  {
    var overwritten := Stage(LEFT_ALONE, Left(WROTE_TWICE), map[0 := Forgetting(7)], map["d" := {9}]);
    assert Next(OVERTAKEN, COMES_LAST[0]) == overwritten;
    LeadsTwo(OVERTAKEN, COMES_LAST[0], overwritten, COMES_LAST[1], LOST);
  }

  lemma OverwritingRunLeads()
    ensures Leads(Init(map[]), OVERWRITING_RUN, LOST)
  {
    hide Leads, Scene, Stage;
    AsksLeads();
    EntryLeads();
    StartsSlow();
    EditsAgain();
    Overtakes();
    ComesLast();
    var edited := Scene(EDITED, WROTE, Some(Gathering(0, 7, {9})));
    LeadsOn(FLUSHING, OVERTAKES, OVERTAKEN, COMES_LAST, LOST);
    LeadsOn(edited, STARTS_SLOW, APPLIED, EDITS_AGAIN, FLUSHING);
    LeadsOn(edited, STARTS_SLOW + EDITS_AGAIN, FLUSHING, OVERTAKES + COMES_LAST, LOST);
    LeadsOn(Init(map[]), ASKS, BEFORE_ROOM, LOADS + ENTERS + OPENS + EDITS, edited);
    LeadsOn(Init(map[]), ASKS + (LOADS + ENTERS + OPENS + EDITS), edited,
            STARTS_SLOW + EDITS_AGAIN + (OVERTAKES + COMES_LAST), LOST);
  }

  /** An accepted update is then neither stored nor on its way to the store: its room is forgotten, no timer is armed
  and no goroutine is left. */
  lemma OverwrittenIsLost()
    ensures CanRun(Init(map[]), OVERWRITING_RUN)
    ensures var s := Run(Init(map[]), OVERWRITING_RUN);
            && 8 in Lookedup(s.written, "d") && Lookedup(s.store, "d") == {9}
            && s.registry == map[] && s.tasks == map[] && forall r :: r in s.rooms ==> !s.rooms[r].saveArmed
  {
    OverwritingRunLeads();
  }
}
