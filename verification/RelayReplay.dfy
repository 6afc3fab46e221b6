/** Frames that arrive before a connection is open are not lost: once it is, each is handled once, in order. */
module RelayReplay {
  import opened Wrappers
  import opened Relay
  import opened RelayMembership

  /** The frames a connection still has to handle from before it was open. */
  function Waiting(k: Conn): seq<Frame> {
    if k.admission.Replaying? then k.admission.queue else if k.admission.Ended? then [] else k.buffer
  }

  /** The frame a step takes in for later: one that arrives while `c` is pending and its buffer has room. */
  function TakenIn(s: State, step: Step, c: Sock): seq<Frame>
    requires Enabled(s, step)
  {
    if step.OfSocket? && step.socket.BufferFrame? && step.socket.c == c && |s.conns[c].buffer| < 64
    then [step.socket.frame] else []
  }

  /** The frame for which a step starts a handler in the replay of `c`. */
  function Replayed(s: State, step: Step, c: Sock): seq<Frame>
    requires Enabled(s, step)
  {
    if step.OfAdmission? && step.admission.Replay? && step.admission.c == c &&
       step.admission.t in Next(s, step).tasks && Next(s, step).tasks[step.admission.t].Arriving? &&
       Next(s, step).tasks[step.admission.t].author == c
    then [Next(s, step).tasks[step.admission.t].frame] else []
  }

  /** A connection that is being replayed, or has ended, is no longer pending, so takes in no more frames. */
  ghost predicate PastPending(s: State, c: Sock) {
    c in s.conns && (s.conns[c].admission.Replaying? || s.conns[c].admission.Ended?) ==> !s.conns[c].phase.Pending?
  }

  /** A step either ends the admission of `c`, or hands on what waits, behind what it replays and before what it takes
  in. */
  ghost predicate HandsOn(s: State, step: Step, c: Sock)
    requires Enabled(s, step) && c in s.conns
  {
    var s' := Next(s, step);
    && PastPending(s', c) && c in s'.conns
    && (s'.conns[c].admission.Ended? ||
        Waiting(s.conns[c]) + TakenIn(s, step, c) == Replayed(s, step, c) + Waiting(s'.conns[c]))
    && (s.conns[c].admission.Ended? ==> s'.conns[c].admission.Ended?)
  }

  lemma SocketHandsOn(s: State, x: SocketStep, c: Sock)
    requires SocketEnabled(s, x) && c in s.conns && PastPending(s, c)
    ensures HandsOn(s, OfSocket(x), c)
  {
    var k := Waiting(s.conns[c]);
    assert k + [] == k == [] + k;
  }

  lemma LoadHandsOn(s: State, x: LoadStep, c: Sock)
    requires WellFormed(s) && LoadEnabled(s, x) && c in s.conns && PastPending(s, c)
    ensures HandsOn(s, OfLoad(x), c)
  {
    hide LoadDelta, LoadEnabled, WellFormed;
    var k := Waiting(s.conns[c]);
    assert k + [] == k == [] + k;
    LoadOnlyMoves(s, x);
  }

  lemma LoadIsEarly(s: State, x: LoadStep)
    requires LoadEnabled(s, x)
    ensures !s.conns[x.c].admission.Replaying? && !s.conns[x.c].admission.Ended?
    ensures LoadDelta(s, x).conn.Put? ==> LoadDelta(s, x).conn.key == x.c
  {
  }

  lemma LoadEndsClosed(s: State, x: LoadStep)
    requires LoadEnabled(s, x)
    ensures LoadDelta(s, x).conn.Put? && LoadDelta(s, x).conn.value.admission.Ended? ==>
              !LoadDelta(s, x).conn.value.phase.Pending?
  {
  }

  lemma LoadOnlyMoves(s: State, x: LoadStep)
    requires WellFormed(s) && LoadEnabled(s, x)
    ensures var d := LoadDelta(s, x);
            && d.conn.Put? && d.conn.key == x.c && d.conn.value.buffer == s.conns[x.c].buffer
            && !s.conns[x.c].admission.Replaying? && !s.conns[x.c].admission.Ended?
            && !d.conn.value.admission.Replaying?
            && (d.conn.value.admission.Ended? ==> !d.conn.value.phase.Pending?)
  {
    hide LoadDelta, LoadEnabled, WellFormed;
    LoadShape(s, x);
    LoadIsEarly(s, x);
    LoadEndsClosed(s, x);
  }

  lemma EarlyAdmissionHandsOn(s: State, x: AdmissionStep, c: Sock)
    requires AdmissionEnabled(s, x) && c in s.conns && PastPending(s, c)
    requires x.Publish? || x.Register? || x.Decide? || x.SendState?
    ensures HandsOn(s, OfAdmission(x), c)
  {
    var k := Waiting(s.conns[c]);
    assert k + [] == k == [] + k;
  }

  lemma OpeningHandsOn(s: State, x: AdmissionStep, c: Sock)
    requires AdmissionEnabled(s, x) && c in s.conns && PastPending(s, c) && (x.CheckOpen? || x.GoOpen?)
    ensures HandsOn(s, OfAdmission(x), c)
  {
    var k := Waiting(s.conns[c]);
    assert k + [] == k == [] + k;
  }

  lemma ReplayHandsOn(s: State, x: AdmissionStep, c: Sock)
    requires AdmissionEnabled(s, x) && c in s.conns && PastPending(s, c) && x.Replay? && x.c == c
    ensures HandsOn(s, OfAdmission(x), c)
  {
    var k := Waiting(s.conns[c]);
    assert k + [] == k == [k[0]] + k[1..];
  }

  lemma OthersReplay(s: State, x: AdmissionStep, c: Sock)
    requires AdmissionEnabled(s, x) && c in s.conns && PastPending(s, c) && x.Replay? && x.c != c
    ensures HandsOn(s, OfAdmission(x), c)
  {
    var k := Waiting(s.conns[c]);
    assert k + [] == k == [] + k;
  }

  lemma AdmissionHandsOn(s: State, x: AdmissionStep, c: Sock)
    requires AdmissionEnabled(s, x) && c in s.conns && PastPending(s, c)
    ensures HandsOn(s, OfAdmission(x), c)
  {
    match x
    case CheckOpen(_, _) => OpeningHandsOn(s, x, c);
    case GoOpen(_) => OpeningHandsOn(s, x, c);
    case Replay(_, _) => if x.c == c { ReplayHandsOn(s, x, c); } else { OthersReplay(s, x, c); }
    case _ => EarlyAdmissionHandsOn(s, x, c);
  }

  lemma OthersHandOn(s: State, step: Step, c: Sock)
    requires Enabled(s, step) && c in s.conns && PastPending(s, c)
    requires step.OfSave? || step.OfDeparture? || step.OfHandler?
    ensures HandsOn(s, step, c)
  {
    var k := Waiting(s.conns[c]);
    assert k + [] == k == [] + k;
  }

  lemma StepHandsOn(s: State, step: Step, c: Sock)
    requires WellFormed(s) && Enabled(s, step) && c in s.conns && PastPending(s, c)
    ensures HandsOn(s, step, c)
  {
    match step
    case OfSocket(x) => SocketHandsOn(s, x, c);
    case OfLoad(x) => LoadHandsOn(s, x, c);
    case OfAdmission(x) => AdmissionHandsOn(s, x, c);
    case _ => OthersHandOn(s, step, c);
  }

  ghost function AllTakenIn(s: State, steps: seq<Step>, c: Sock): seq<Frame>
    requires CanRun(s, steps)
    decreases |steps|
  {
    if steps == [] then [] else TakenIn(s, steps[0], c) + AllTakenIn(Next(s, steps[0]), steps[1..], c)
  }

  ghost function AllReplayed(s: State, steps: seq<Step>, c: Sock): seq<Frame>
    requires CanRun(s, steps)
    decreases |steps|
  {
    if steps == [] then [] else Replayed(s, steps[0], c) + AllReplayed(Next(s, steps[0]), steps[1..], c)
  }

  lemma Chain(w: seq<Frame>, t: seq<Frame>, ts: seq<Frame>, r: seq<Frame>, rs: seq<Frame>, mid: seq<Frame>,
              end: seq<Frame>)
    requires w + t == r + mid && mid + ts == rs + end
    ensures w + (t + ts) == (r + rs) + end
  {
    Associates(w, t, ts);
    Associates(r, mid, ts);
    Associates(r, rs, end);
  }

  lemma {:induction false} HandsOnRun(s: State, steps: seq<Step>, c: Sock)
    requires WellFormed(s) && CanRun(s, steps) && c in s.conns && PastPending(s, c)
    ensures c in Run(s, steps).conns && (s.conns[c].admission.Ended? ==> Run(s, steps).conns[c].admission.Ended?)
    ensures Run(s, steps).conns[c].admission.Ended? ||
            Waiting(s.conns[c]) + AllTakenIn(s, steps, c) == AllReplayed(s, steps, c) + Waiting(Run(s, steps).conns[c])
    decreases |steps|
  {
    if steps == [] {
      assert Waiting(s.conns[c]) + [] == [] + Waiting(s.conns[c]);
    } else {
      hide WellFormed, Waiting, TakenIn, Replayed, Enabled, DeltaOf;
      var next := Next(s, steps[0]);
      StepHandsOn(s, steps[0], c);
      WellFormedStep(s, steps[0]);
      HandsOnRun(next, steps[1..], c);
      if !Run(s, steps).conns[c].admission.Ended? {
        Chain(Waiting(s.conns[c]), TakenIn(s, steps[0], c), AllTakenIn(next, steps[1..], c), Replayed(s, steps[0], c),
              AllReplayed(next, steps[1..], c), Waiting(next.conns[c]), Waiting(Run(s, steps).conns[c]));
      }
    }
  }

  /** From its arrival on, however the sections interleave, the frames a connection takes in before it is open are those
  it has replayed, in order, and then those that still wait, unless its admission has ended. */
  lemma FramesAreReplayed(store: map<Name, set<Update>>, before: seq<Step>, c: Sock, steps: seq<Step>)
    requires CanRun(Init(store), before) && c !in Run(Init(store), before).conns
    requires CanRun(Next(Run(Init(store), before), OfSocket(Accept(c))), steps)
    ensures var s := Next(Run(Init(store), before), OfSocket(Accept(c)));
            && c in Run(s, steps).conns
            && (!Run(s, steps).conns[c].admission.Ended? ==>
                  AllTakenIn(s, steps, c) == AllReplayed(s, steps, c) + Waiting(Run(s, steps).conns[c]))
  {
    MembershipRun(Init(store), before);
    WellFormedStep(Run(Init(store), before), OfSocket(Accept(c)));
    var s := Next(Run(Init(store), before), OfSocket(Accept(c)));
    HandsOnRun(s, steps, c);
    assert [] + AllTakenIn(s, steps, c) == AllTakenIn(s, steps, c);
  }

  // ---- What a handled frame does ----

  /** A document frame of a connection that can write is added to its room's document, and to no other; any other frame
  leaves every document as it is. */
  lemma FrameIsApplied(s: State, t: TaskId)
    requires WellFormed(s) && HandlerEnabled(s, Apply(t))
    ensures var Arriving(c, r, frame) := s.tasks[t];
            var s' := Next(s, OfHandler(Apply(t)));
            && s'.rooms.Keys == s.rooms.Keys && c in s.conns && s.conns[c].room == Some(r)
            && (forall q :: q in s.rooms && q != r ==> s'.rooms[q] == s.rooms[q])
            && s'.rooms[r].doc ==
               s.rooms[r].doc + (if frame.Doc? && s.conns[c].canWrite then frame.updates else {})
  {
    assert TaskOk(s, s.tasks[t]);
    var Arriving(c, r, frame) := s.tasks[t];
    assert s.rooms[r].doc + {} == s.rooms[r].doc;
  }
}
