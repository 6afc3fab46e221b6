/** The collaboration relay as a transition system.

Every critical section of the Go relay (one hold of the registry lock, of a room's document lock or of a
connection's lock) is one atomic step, and goroutines interleave freely between sections. A section that holds
a room's document lock and takes the registry lock inside it is one step: only holders of the document lock
touch the document, so the section takes effect at its inner hold.

The CRDT document is a grow-only set of updates: applying is union, encoding the state is the set itself. */
module Relay {
  import opened Wrappers

  type Sock = nat
  type RoomId = nat
  type TaskId = nat
  type Name = string
  type Update = nat

  const MAX_ROOMS := 10_000
  const MAX_PENDING_FRAMES := 64

  datatype Phase = Pending | Open | Closed

  datatype Frame = Blank | Unknown | Aware | Malformed | Doc(updates: set<Update>)

  /** Where a connection's admission goroutine stands. */
  datatype Admission =
    | Idle
    | LookingUp(name: Name)
    | Loading(name: Name)
    | Loaded(name: Name, snapshot: set<Update>)
    | Reserved(room: RoomId)
    | Published(room: RoomId)
    | Registered(room: RoomId)
    | CheckedOpen(room: RoomId)
    | Decided(room: RoomId, state: set<Update>)
    | StateSent(room: RoomId)
    | Replaying(queue: seq<Frame>)
    | Ended

  /** A connection. The last three fields are its history: the state encoded for it, the updates sent to it and
  the updates its own handlers applied. */
  datatype Conn = Conn(
    phase: Phase,
    isOpen: bool,
    closeFired: bool,
    room: Option<RoomId>,
    canWrite: bool,
    buffer: seq<Frame>,
    admission: Admission,
    encoded: Option<set<Update>>,
    sent: set<Update>,
    authored: set<Update>)

  /** A room object. `granted` is its history of seed grants. */
  datatype Room = Room(
    name: Name,
    doc: set<Update>,
    sockets: set<Sock>,
    pending: int,
    seeder: Option<Sock>,
    saveArmed: bool,
    granted: set<Sock>)

  /** A goroutine other than an admission: a departure, a save or a frame handler. */
  datatype Task =
    | Dropping(sock: Sock, room: RoomId)
    | Flushing(room: RoomId)
    | Encoding(room: RoomId, forget: bool)
    | Saving(room: RoomId, forget: bool, snapshot: set<Update>)
    | Forgetting(room: RoomId)
    | Arriving(author: Sock, room: RoomId, frame: Frame)
    | Applied(author: Sock, room: RoomId, updates: set<Update>)
    | Gathering(author: Sock, room: RoomId, updates: set<Update>)
    | Fanning(author: Sock, room: RoomId, updates: set<Update>, rest: set<Sock>)

  /** `written` is history: per room name, what the store held at first plus what writers applied. */
  datatype State = State(
    registry: map<Name, RoomId>,
    rooms: map<RoomId, Room>,
    conns: map<Sock, Conn>,
    tasks: map<TaskId, Task>,
    store: map<Name, set<Update>>,
    written: map<Name, set<Update>>)

  /** What the socket of a connection does. */
  datatype SocketStep =
    | Accept(c: Sock)
    | BufferFrame(c: Sock, frame: Frame)
    | Dispatch(c: Sock, frame: Frame, t: TaskId)
    | Reject(c: Sock)
    | SocketCloses(c: Sock)
    | OnClose(c: Sock, t: TaskId)

  /** The first sections of `admit`, through `loadRoom`, in program order. */
  datatype LoadStep =
    | Begin(c: Sock, name: Name)
    | Refuse(c: Sock)
    | Lookup(c: Sock)
    | Load(c: Sock)
    | Install(c: Sock, newId: RoomId)

  /** The remaining sections of `admit`. */
  datatype AdmissionStep =
    | Publish(c: Sock, canWrite: bool)
    | Register(c: Sock)
    | CheckOpen(c: Sock, t: TaskId)
    | Decide(c: Sock)
    | SendState(c: Sock)
    | GoOpen(c: Sock)
    | Replay(c: Sock, t: TaskId)

  /** What starts a save other than the last departure. */
  datatype SaveStep =
    | TimerFires(r: RoomId, t: TaskId)
    | FlushRoom(n: Name, t: TaskId)

  /** The sections of `dropSocket`, `flush` and `safeSave`. */
  datatype DepartureStep =
    | Drop(t: TaskId, heir: Sock)
    | Disarm(t: TaskId)
    | Encode(t: TaskId)
    | Save(t: TaskId, ok: bool)
    | Forget(t: TaskId)

  /** The sections of `handle`. */
  datatype HandlerStep =
    | Apply(t: TaskId)
    | Arm(t: TaskId)
    | Gather(t: TaskId)
    | Deliver(t: TaskId, peer: Sock)
    | Finish(t: TaskId)

  datatype Step =
    | OfSocket(socket: SocketStep)
    | OfLoad(load: LoadStep)
    | OfAdmission(admission: AdmissionStep)
    | OfSave(save: SaveStep)
    | OfDeparture(departure: DepartureStep)
    | OfHandler(handler: HandlerStep)

  /** A section changes at most one connection, one room, one task, one registry entry and one store entry. */
  datatype Change<K, V> = Keep | Put(key: K, value: V) | Remove(key: K)

  datatype Delta = Delta(
    conn: Change<Sock, Conn>,
    room: Change<RoomId, Room>,
    task: Change<TaskId, Task>,
    registry: Change<Name, RoomId>,
    store: Change<Name, set<Update>>,
    written: Change<Name, set<Update>>)

  function Changed<K, V>(m: map<K, V>, change: Change<K, V>): map<K, V> {
    match change
    case Keep => m
    case Put(k, v) => m[k := v]
    case Remove(k) => m - {k}
  }

  function Commit(s: State, d: Delta): State {
    State(Changed(s.registry, d.registry), Changed(s.rooms, d.room), Changed(s.conns, d.conn),
          Changed(s.tasks, d.task), Changed(s.store, d.store), Changed(s.written, d.written))
  }

  // ---- The sections that change a room object ----

  function NewRoom(name: Name, doc: set<Update>): Room {
    Room(name, doc, {}, 1, None, false, {})
  }

  function Reserve(r: Room): Room { r.(pending := r.pending + 1) }

  function Join(r: Room, c: Sock): Room { r.(pending := r.pending - 1, sockets := r.sockets + {c}) }

  /** The seed decision of an admission. */
  function DecideSeed(r: Room, c: Sock): Room {
    if r.seeder.None? && r.doc == {} then r.(seeder := Some(c), granted := r.granted + {c}) else r
  }

  /** A departure; `heir` is the surviving peer the map iteration happens to yield first. */
  function Leave(r: Room, c: Sock, heir: Sock): Room {
    var left := r.(sockets := r.sockets - {c});
    if left.seeder != Some(c) then left
    else if left.doc == {} && heir in left.sockets
    then left.(seeder := Some(heir), granted := left.granted + {heir})
    else left.(seeder := None)
  }

  predicate Abandoned(r: Room) { r.sockets == {} && r.pending == 0 }

  function ApplyUpdates(r: Room, us: set<Update>): Room { r.(doc := r.doc + us) }

  // ---- Steps ----

  const NOTHING := Delta(Keep, Keep, Keep, Keep, Keep, Keep)

  function Init(store: map<Name, set<Update>>): State {
    State(map[], map[], map[], map[], store, store)
  }

  function Lookedup(m: map<Name, set<Update>>, n: Name): set<Update> {
    if n in m then m[n] else {}
  }

  predicate SocketEnabled(s: State, step: SocketStep) {
    match step
    case Accept(c) => c !in s.conns
    case BufferFrame(c, _) => c in s.conns && s.conns[c].phase.Pending?
    case Dispatch(c, _, t) => c in s.conns && s.conns[c].phase.Open? && s.conns[c].room.Some? && t !in s.tasks
    case Reject(c) => c in s.conns
    case SocketCloses(c) => c in s.conns
    case OnClose(c, t) => c in s.conns && !s.conns[c].isOpen && !s.conns[c].closeFired && t !in s.tasks
  }

  function SocketDelta(s: State, step: SocketStep): Delta
    requires SocketEnabled(s, step)
  {
    match step
    case Accept(c) =>
      NOTHING.(conn := Put(c, Conn(Pending, true, false, None, false, [], Idle, None, {}, {})))
    case BufferFrame(c, frame) =>
      var k := s.conns[c];
      NOTHING.(conn := Put(c, if |k.buffer| >= MAX_PENDING_FRAMES then k.(phase := Closed)
                              else k.(buffer := k.buffer + [frame])))
    case Dispatch(c, frame, t) => NOTHING.(task := Put(t, Arriving(c, s.conns[c].room.value, frame)))
    case Reject(c) => NOTHING.(conn := Put(c, s.conns[c].(phase := Closed)))
    case SocketCloses(c) => NOTHING.(conn := Put(c, s.conns[c].(isOpen := false)))
    case OnClose(c, t) =>
      var k := s.conns[c];
      NOTHING.(conn := Put(c, k.(phase := Closed, closeFired := true)),
               task := if k.room.Some? then Put(t, Dropping(c, k.room.value)) else Keep)
  }

  predicate LoadEnabled(s: State, step: LoadStep) {
    step.c in s.conns &&
    var k := s.conns[step.c];
    match step
    case Begin(_, _) => k.admission.Idle? && !k.phase.Closed?
    case Refuse(_) => k.admission.Idle? || k.admission.Loading?
    case Lookup(_) => k.admission.LookingUp?
    case Load(_) => k.admission.Loading?
    case Install(_, newId) => k.admission.Loaded? && newId !in s.rooms
  }

  predicate AdmissionEnabled(s: State, step: AdmissionStep) {
    step.c in s.conns &&
    var k := s.conns[step.c];
    match step
    case Publish(_, _) => k.admission.Reserved?
    case Register(_) => k.admission.Published? && k.admission.room in s.rooms
    case CheckOpen(_, t) => k.admission.Registered? && t !in s.tasks
    case Decide(_) => k.admission.CheckedOpen? && k.admission.room in s.rooms
    case SendState(_) => k.admission.Decided?
    case GoOpen(_) => k.admission.StateSent?
    case Replay(_, t) => k.admission.Replaying? && k.admission.queue != [] && k.room.Some? && t !in s.tasks
  }

  /** The lookup under the registry lock, made once before the store load and once after it. `miss` is what a
  name that is not registered leads to. */
  function LookupDelta(s: State, c: Sock, n: Name, miss: Delta): Delta
    requires c in s.conns
  {
    var k := s.conns[c];
    if n in s.registry then
      var r := s.registry[n];
      if r !in s.rooms then NOTHING
      else NOTHING.(room := Put(r, Reserve(s.rooms[r])), conn := Put(c, k.(admission := Reserved(r))))
    else if |s.registry| >= MAX_ROOMS then RefusedDelta(c, k)
    else miss
  }

  function RefusedDelta(c: Sock, k: Conn): Delta {
    NOTHING.(conn := Put(c, k.(phase := Closed, admission := Ended)))
  }

  function LoadDelta(s: State, step: LoadStep): Delta
    requires LoadEnabled(s, step)
  {
    var c := step.c;
    var k := s.conns[c];
    match step
    case Begin(_, name) => NOTHING.(conn := Put(c, k.(admission := LookingUp(name))))
    case Refuse(_) => RefusedDelta(c, k)
    case Lookup(_) =>
      var n := k.admission.name;
      LookupDelta(s, c, n, NOTHING.(conn := Put(c, k.(admission := Loading(n)))))
    case Load(_) =>
      var n := k.admission.name;
      NOTHING.(conn := Put(c, k.(admission := Loaded(n, Lookedup(s.store, n)))))
    case Install(_, newId) =>
      var Loaded(n, snapshot) := k.admission;
      LookupDelta(s, c, n, NOTHING.(room := Put(newId, NewRoom(n, snapshot)), registry := Put(n, newId),
                                    conn := Put(c, k.(admission := Reserved(newId)))))
  }

  function AdmissionDelta(s: State, step: AdmissionStep): Delta
    requires AdmissionEnabled(s, step)
  {
    var c := step.c;
    var k := s.conns[c];
    match step
    case Publish(_, canWrite) =>
      var r := k.admission.room;
      NOTHING.(conn := Put(c, k.(canWrite := canWrite, room := Some(r), admission := Published(r))))
    case Register(_) =>
      var r := k.admission.room;
      NOTHING.(room := Put(r, Join(s.rooms[r], c)), conn := Put(c, k.(admission := Registered(r))))
    case CheckOpen(_, t) =>
      var r := k.admission.room;
      if k.isOpen then NOTHING.(conn := Put(c, k.(admission := CheckedOpen(r))))
      else NOTHING.(conn := Put(c, k.(phase := Closed, admission := Ended)), task := Put(t, Dropping(c, r)))
    case Decide(_) =>
      var r := k.admission.room;
      var room := s.rooms[r];
      NOTHING.(room := Put(r, DecideSeed(room, c)),
               conn := Put(c, k.(admission := Decided(r, room.doc), encoded := Some(room.doc))))
    case SendState(_) =>
      var Decided(r, state) := k.admission;
      NOTHING.(conn := Put(c, k.(admission := StateSent(r), sent := k.sent + state)))
    case GoOpen(_) =>
      NOTHING.(conn := Put(c, if !k.phase.Pending? then k.(admission := Ended)
                              else k.(phase := Open, buffer := [], admission := Replaying(k.buffer))))
    case Replay(_, t) =>
      var queue := k.admission.queue;
      NOTHING.(conn := Put(c, k.(admission := Replaying(queue[1..]))),
               task := Put(t, Arriving(c, k.room.value, queue[0])))
  }

  predicate SaveEnabled(s: State, step: SaveStep) {
    step.t !in s.tasks &&
    match step
    case TimerFires(r, _) => r in s.rooms && s.rooms[r].saveArmed
    case FlushRoom(n, _) => n in s.registry && s.registry[n] in s.rooms
  }

  function SaveDelta(s: State, step: SaveStep): Delta
    requires SaveEnabled(s, step)
  {
    var r := if step.TimerFires? then step.r else s.registry[step.n];
    NOTHING.(room := Put(r, s.rooms[r].(saveArmed := false)), task := Put(step.t, Encoding(r, false)))
  }

  predicate DepartureEnabled(s: State, step: DepartureStep) {
    step.t in s.tasks && s.tasks[step.t].room in s.rooms &&
    var task := s.tasks[step.t];
    match step
    case Drop(_, heir) =>
      task.Dropping? &&
      var others := s.rooms[task.room].sockets - {task.sock};
      (others != {} ==> heir in others)
    case Disarm(_) => task.Flushing?
    case Encode(_) => task.Encoding?
    case Save(_, _) => task.Saving?
    case Forget(_) => task.Forgetting?
  }

  function DepartureDelta(s: State, step: DepartureStep): Delta
    requires DepartureEnabled(s, step)
  {
    var t := step.t;
    var r := s.tasks[t].room;
    var room := s.rooms[r];
    match step
    case Drop(_, heir) =>
      var after := Leave(room, s.tasks[t].sock, heir);
      NOTHING.(room := Put(r, after), task := if Abandoned(after) then Put(t, Flushing(r)) else Remove(t))
    case Disarm(_) => NOTHING.(room := Put(r, room.(saveArmed := false)), task := Put(t, Encoding(r, true)))
    case Encode(_) => NOTHING.(task := Put(t, Saving(r, s.tasks[t].forget, room.doc)))
    case Save(_, ok) =>
      NOTHING.(store := if ok then Put(room.name, s.tasks[t].snapshot) else Keep,
               task := if s.tasks[t].forget then Put(t, Forgetting(r)) else Remove(t))
    case Forget(_) =>
      NOTHING.(task := Remove(t),
               registry := if Abandoned(room) && room.name in s.registry && s.registry[room.name] == r
                           then Remove(room.name) else Keep)
  }

  predicate HandlerEnabled(s: State, step: HandlerStep) {
    step.t in s.tasks && s.tasks[step.t].room in s.rooms &&
    var task := s.tasks[step.t];
    match step
    case Apply(_) => task.Arriving? && task.author in s.conns
    case Arm(_) => task.Applied?
    case Gather(_) => task.Gathering?
    case Deliver(_, peer) => task.Fanning? && peer in task.rest && peer in s.conns
    case Finish(_) => task.Fanning? && task.rest == {}
  }

  function HandlerDelta(s: State, step: HandlerStep): Delta
    requires HandlerEnabled(s, step)
  {
    var t := step.t;
    var r := s.tasks[t].room;
    var room := s.rooms[r];
    match step
    case Apply(_) =>
      var Arriving(c, _, frame) := s.tasks[t];
      var k := s.conns[c];
      if frame.Aware? then NOTHING.(task := Put(t, Gathering(c, r, {})))
      else if frame.Doc? && k.canWrite then
        NOTHING.(room := Put(r, ApplyUpdates(room, frame.updates)),
                 conn := Put(c, k.(authored := k.authored + frame.updates)),
                 task := Put(t, Applied(c, r, frame.updates)),
                 written := Put(room.name, Lookedup(s.written, room.name) + frame.updates))
      else NOTHING.(task := Remove(t))
    case Arm(_) =>
      NOTHING.(room := Put(r, room.(saveArmed := true)),
               task := Put(t, Gathering(s.tasks[t].author, r, s.tasks[t].updates)))
    case Gather(_) =>
      var Gathering(c, _, us) := s.tasks[t];
      NOTHING.(task := Put(t, Fanning(c, r, us, room.sockets - {c})))
    case Deliver(_, peer) =>
      var Fanning(c, _, us, rest) := s.tasks[t];
      var k := s.conns[peer];
      NOTHING.(conn := if k.isOpen then Put(peer, k.(sent := k.sent + us)) else Keep,
               task := Put(t, Fanning(c, r, us, rest - {peer})))
    case Finish(_) => NOTHING.(task := Remove(t))
  }

  /** A step is enabled when the goroutine that runs it stands just before that section. */
  predicate Enabled(s: State, step: Step) {
    match step
    case OfSocket(x) => SocketEnabled(s, x)
    case OfLoad(x) => LoadEnabled(s, x)
    case OfAdmission(x) => AdmissionEnabled(s, x)
    case OfSave(x) => SaveEnabled(s, x)
    case OfDeparture(x) => DepartureEnabled(s, x)
    case OfHandler(x) => HandlerEnabled(s, x)
  }

  function DeltaOf(s: State, step: Step): Delta
    requires Enabled(s, step)
  {
    match step
    case OfSocket(x) => SocketDelta(s, x)
    case OfLoad(x) => LoadDelta(s, x)
    case OfAdmission(x) => AdmissionDelta(s, x)
    case OfSave(x) => SaveDelta(s, x)
    case OfDeparture(x) => DepartureDelta(s, x)
    case OfHandler(x) => HandlerDelta(s, x)
  }

  function Next(s: State, step: Step): State
    requires Enabled(s, step)
  {
    Commit(s, DeltaOf(s, step))
  }

  // ---- Runs ----

  ghost predicate CanRun(s: State, steps: seq<Step>)
    decreases |steps|
  {
    steps == [] || (Enabled(s, steps[0]) && CanRun(Next(s, steps[0]), steps[1..]))
  }

  ghost function Run(s: State, steps: seq<Step>): State
    requires CanRun(s, steps)
    decreases |steps|
  {
    if steps == [] then s else Run(Next(s, steps[0]), steps[1..])
  }
}
