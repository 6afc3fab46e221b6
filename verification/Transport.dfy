/** The self-healing socket: one inner socket at a time, retried with backoff until it is told to stop. */
module Transport {
  import opened Wrappers

  type Socket = nat

  datatype CloseEvent = CloseEvent(code: Option<int>)

  datatype Status = Reconnecting | Reconnected | Disconnected | Rejected

  /** The backoff schedule and the retry budget. */
  datatype Tuning = Tuning(base: real, cap: real, jitter: real, maxRetries: nat)

  predicate ValidTuning(t: Tuning) { t.base >= 0.0 && t.cap >= 0.0 && t.jitter >= 0.0 }

  /** Close codes of RFC 6455, section 7.4.1, that the relay uses for rejections. */
  predicate IsPolicyClose(e: CloseEvent) { e.code == Some(1008) || e.code == Some(1009) }

  // ---- Backoff ----

  function Doubled(x: real, n: nat): real { if n == 0 then x else 2.0 * Doubled(x, n - 1) }

  function Round(x: real): int { (x + 0.5).Floor }

  function BaseDelay(t: Tuning, attempt: nat): real { Min(t.cap, Doubled(t.base, attempt)) }

  function BackoffDelay(t: Tuning, attempt: nat, random: real): int {
    var exp := BaseDelay(t, attempt);
    Round(exp + exp * t.jitter * random)
  }

  lemma {:induction false} DoublingGrows(x: real, a: nat, b: nat)
    requires x >= 0.0 && a <= b
    ensures 0.0 <= Doubled(x, a) <= Doubled(x, b)
    decreases b
  {
    if b > 0 {
      if a == b { DoublingGrows(x, a - 1, b - 1); } else { DoublingGrows(x, a, b - 1); }
    }
  }

  lemma Scale(a: real, b: real, k: real)
    requires 0.0 <= a <= b && k >= 0.0
    ensures 0.0 <= a * k <= b * k
  {
    assert b * k - a * k == (b - a) * k;
  }

  lemma Shrink(a: real, k: real)
    requires a >= 0.0 && 0.0 <= k <= 1.0
    ensures 0.0 <= a * k <= a
  {
    assert a - a * k == a * (1.0 - k);
  }

  lemma Spread(exp: real, cap: real, jitter: real, random: real)
    requires 0.0 <= exp <= cap && jitter >= 0.0 && 0.0 <= random <= 1.0
    ensures exp <= exp + exp * jitter * random <= cap + cap * jitter
  {
    var j := exp * jitter;
    Scale(exp, cap, jitter);
    Shrink(j, random);
    assert j * random <= j && j <= cap * jitter;
    assert exp + j * random <= cap + cap * jitter;
    assert exp * jitter * random == j * random;
  }

  lemma RoundMonotone(a: real, b: real)
    requires a <= b
    ensures Round(a) <= Round(b)
  {
  }

  /** Delays never shrink with the attempts but for jitter, and the cap bounds them all. */
  lemma DelayIsCapped(t: Tuning, attempt: nat, random: real)
    requires ValidTuning(t) && 0.0 <= random <= 1.0
    ensures 0.0 <= BaseDelay(t, attempt) <= BaseDelay(t, attempt + 1) <= t.cap
    ensures Round(BaseDelay(t, attempt)) <= BackoffDelay(t, attempt, random) <= Round(t.cap + t.cap * t.jitter)
  {
    DoublingGrows(t.base, attempt, attempt + 1);
    hide Doubled;
    var exp := BaseDelay(t, attempt);
    Spread(exp, t.cap, t.jitter, random);
    RoundMonotone(exp, exp + exp * t.jitter * random);
    RoundMonotone(exp + exp * t.jitter * random, t.cap + t.cap * t.jitter);
  }

  /** Rounding goes to the nearest number of milliseconds, halves up. */
  lemma RoundsToNearest(x: real)
    ensures Round(x) as real - 0.5 <= x < Round(x) as real + 0.5
  {
  }

  /** A draw of 0 adds nothing to the delay, and one of 1 the whole jitter. */
  lemma JitterIsDrawn(t: Tuning, attempt: nat, random: real)
    ensures random == 0.0 ==> BackoffDelay(t, attempt, random) == Round(BaseDelay(t, attempt))
    ensures random == 1.0 ==>
              BackoffDelay(t, attempt, random) == Round(BaseDelay(t, attempt) + BaseDelay(t, attempt) * t.jitter)
  {
    WholeJitter(BaseDelay(t, attempt), t.jitter, random);
  }

  lemma WholeJitter(exp: real, jitter: real, random: real)
    ensures random == 1.0 ==> exp + exp * jitter * random == exp + exp * jitter
    ensures random == 0.0 ==> exp + exp * jitter * random == exp
  {
  }

  /** Each delay is twice the one before until the cap is reached. */
  lemma BackoffDoubles(t: Tuning, attempt: nat)
    requires ValidTuning(t)
    ensures BaseDelay(t, 0) == Min(t.cap, t.base)
    ensures BaseDelay(t, attempt + 1) == Min(t.cap, 2.0 * BaseDelay(t, attempt))
  {
    DoublingGrows(t.base, attempt, attempt);
  }

  // ---- The machine ----

  /** The transport's own variables, and around them the world: the sockets minted, those that have closed, the timers
  still to fire, what the consumer has been told, and whether the user has closed. */
  datatype State = State(inner: Socket, attempt: nat, stopped: bool, reconnectedPending: bool,
                         minted: nat, dead: set<Socket>, timers: nat,
                         surfaced: seq<CloseEvent>, statuses: seq<Status>, delays: seq<int>, userClosed: bool)

  datatype Event =
    | Opened(socket: Socket)
    | Closed(socket: Socket, e: CloseEvent, random: real)
    | TimerFired
    | UserClosed

  function Init(): State { State(0, 0, false, false, 1, {}, 0, [], [], [], false) }

  /** A socket opens only while it has not closed, and closes once. */
  predicate Enabled(s: State, ev: Event) {
    match ev
    case Opened(k) => k < s.minted && k !in s.dead
    case Closed(k, _, random) => k < s.minted && k !in s.dead && 0.0 <= random <= 1.0
    case TimerFired => s.timers > 0
    case UserClosed => true
  }

  function Reconnect(t: Tuning, s: State, random: real): State {
    if s.stopped then s
    else if s.attempt >= t.maxRetries then
      s.(stopped := true, statuses := s.statuses + [Disconnected], surfaced := s.surfaced + [CloseEvent(None)])
    else
      s.(delays := s.delays + [BackoffDelay(t, s.attempt, random)], attempt := s.attempt + 1,
         reconnectedPending := true,
         statuses := s.statuses + [Reconnecting], timers := s.timers + 1)
  }

  function Step(t: Tuning, s: State, ev: Event): State
    requires Enabled(s, ev)
  {
    match ev
    case Opened(_) =>
      if s.reconnectedPending then s.(attempt := 0, reconnectedPending := false, statuses := s.statuses + [Reconnected])
      else s.(attempt := 0)
    case Closed(k, e, random) =>
      var closed := s.(dead := s.dead + {k});
      if s.stopped then closed
      else if IsPolicyClose(e) then
        closed.(stopped := true, statuses := s.statuses + [Rejected], surfaced := s.surfaced + [e])
      else Reconnect(t, closed, random)
    case TimerFired =>
      var fired := s.(timers := s.timers - 1);
      if s.stopped then fired else fired.(inner := s.minted, minted := s.minted + 1)
    case UserClosed => s.(stopped := true, userClosed := true)
  }

  predicate CanRun(t: Tuning, s: State, events: seq<Event>)
    decreases |events|
  {
    events == [] || (Enabled(s, events[0]) && CanRun(t, Step(t, s, events[0]), events[1..]))
  }

  function Run(t: Tuning, s: State, events: seq<Event>): State
    requires CanRun(t, s, events)
    decreases |events|
  {
    if events == [] then s else Run(t, Step(t, s, events[0]), events[1..])
  }

  // ---- The transport as it is written: handlers over four variables ----

  class ReconnectingTransport {
    const tuning: Tuning
    var inner: Socket
    var attempt: nat
    var stopped: bool
    var reconnectedPending: bool
    // The world around it.
    var minted: nat
    var dead: set<Socket>
    var timers: nat
    var surfaced: seq<CloseEvent>
    var statuses: seq<Status>
    var delays: seq<int>
    ghost var userClosed: bool

    ghost function Value(): State
      reads this
    {
      State(inner, attempt, stopped, reconnectedPending, minted, dead, timers, surfaced, statuses, delays, userClosed)
    }

    constructor (tuning: Tuning)
      ensures this.tuning == tuning && Value() == Init()
    {
      this.tuning := tuning;
      inner, attempt, stopped, reconnectedPending := 0, 0, false, false;
      minted, dead, timers, surfaced, statuses, delays, userClosed := 1, {}, 0, [], [], [], false;
    }

    method OnOpen(socket: Socket)
      requires Enabled(Value(), Opened(socket))
      modifies this
      ensures Value() == Step(tuning, old(Value()), Opened(socket))
    {
      attempt := 0;
      if reconnectedPending {
        reconnectedPending := false;
        statuses := statuses + [Reconnected];
      }
    }

    method OnClose(socket: Socket, e: CloseEvent, random: real)
      requires Enabled(Value(), Closed(socket, e, random))
      modifies this
      ensures Value() == Step(tuning, old(Value()), Closed(socket, e, random))
    {
      dead := dead + {socket};
      if stopped { return; }
      if IsPolicyClose(e) {
        stopped := true;
        statuses := statuses + [Rejected];
        surfaced := surfaced + [e];
        return;
      }
      Retry(random);
    }

    method Retry(random: real)
      modifies this
      ensures Value() == Reconnect(tuning, old(Value()), random)
    {
      if stopped { return; }
      if attempt >= tuning.maxRetries {
        stopped := true;
        statuses := statuses + [Disconnected];
        surfaced := surfaced + [CloseEvent(None)];
        return;
      }
      delays := delays + [BackoffDelay(tuning, attempt, random)];
      attempt := attempt + 1;
      reconnectedPending := true;
      statuses := statuses + [Reconnecting];
      timers := timers + 1;
    }

    method OnTimer()
      requires Enabled(Value(), TimerFired)
      modifies this
      ensures Value() == Step(tuning, old(Value()), TimerFired)
    {
      timers := timers - 1;
      if stopped { return; }
      inner := minted;
      minted := minted + 1;
    }

    method Close()
      modifies this
      ensures Value() == Step(tuning, old(Value()), UserClosed)
    {
      stopped := true;
      userClosed := true;
    }
  }

  // ---- Every run ----

  /** While it has not stopped, either the newest socket is alive and no timer runs, or it is dead and one timer
  does. */
  ghost predicate Inv(t: Tuning, s: State) {
    && s.minted == s.inner + 1 && (forall k :: k in s.dead ==> k < s.minted)
    && (forall k :: 0 <= k < s.inner ==> k in s.dead)
    && (!s.stopped ==> s.timers == if s.inner in s.dead then 1 else 0)
    && (!s.stopped ==> s.timers <= s.attempt) && s.attempt <= t.maxRetries
    && (!s.stopped ==> s.surfaced == [] && !s.userClosed)
    && |s.surfaced| <= 1 && (s.stopped && !s.userClosed ==> |s.surfaced| == 1)
    && (s.reconnectedPending ==> s.minted > 1 || s.timers > 0 || s.stopped)
    && forall d :: d in s.delays ==> d <= Round(t.cap + t.cap * t.jitter)
  }

  lemma StepKeeps(t: Tuning, s: State, ev: Event)
    requires ValidTuning(t) && Inv(t, s) && Enabled(s, ev)
    ensures Inv(t, Step(t, s, ev))
  {
    if ev.Closed? { DelayIsCapped(t, s.attempt, ev.random); }
  }

  lemma {:induction false} RunKeeps(t: Tuning, s: State, events: seq<Event>)
    requires ValidTuning(t) && Inv(t, s) && CanRun(t, s, events)
    ensures Inv(t, Run(t, s, events))
    decreases |events|
  {
    if events != [] {
      StepKeeps(t, s, events[0]);
      RunKeeps(t, Step(t, s, events[0]), events[1..]);
    }
  }

  /** Once stopped, however that came about, nothing more is minted or surfaced. */
  lemma {:induction false} StoppedIsFinal(t: Tuning, s: State, events: seq<Event>)
    requires s.stopped && CanRun(t, s, events)
    ensures var end := Run(t, s, events);
            end.stopped && end.minted == s.minted && end.surfaced == s.surfaced && end.delays == s.delays
    decreases |events|
  {
    if events != [] { StoppedIsFinal(t, Step(t, s, events[0]), events[1..]); }
  }

  /** In every run the consumer hears of at most one close, and of none at or after a close of its own; it hears of one
  exactly when the transport has stopped by itself. */
  lemma ClosesOnce(t: Tuning, before: seq<Event>, events: seq<Event>)
    requires ValidTuning(t) && CanRun(t, Init(), before) && CanRun(t, Run(t, Init(), before), events)
    ensures var s, end := Run(t, Init(), before), Run(t, Run(t, Init(), before), events);
            && |end.surfaced| <= 1
            && (s.userClosed ==> end.surfaced == s.surfaced)
            && (!end.userClosed ==> (end.stopped <==> |end.surfaced| == 1))
  {
    RunKeeps(t, Init(), before);
    var s := Run(t, Init(), before);
    RunKeeps(t, s, events);
    if s.userClosed { StoppedIsFinal(t, s, events); }
  }

  /** A policy close is passed on and ends everything: no socket is ever minted after it. */
  lemma PolicyIsFinal(t: Tuning, before: seq<Event>, ev: Event, events: seq<Event>)
    requires ValidTuning(t) && CanRun(t, Init(), before) && Enabled(Run(t, Init(), before), ev)
    requires ev.Closed? && (ev.e.code == Some(1008) || ev.e.code == Some(1009)) &&
             CanRun(t, Step(t, Run(t, Init(), before), ev), events)
    ensures var s, end := Run(t, Init(), before), Run(t, Step(t, Run(t, Init(), before), ev), events);
            && end.minted == s.minted && end.stopped && end.delays == s.delays
            && (!s.stopped ==> end.surfaced == [ev.e])
  {
    RunKeeps(t, Init(), before);
    var s := Run(t, Init(), before);
    StoppedIsFinal(t, Step(t, s, ev), events);
  }

  ghost predicate NoOpen(events: seq<Event>) { forall ev :: ev in events ==> !ev.Opened? }

  /** Without an open, every socket minted uses up a scheduled timer or a retry. */
  lemma {:induction false} RetriesAreSpent(t: Tuning, s: State, events: seq<Event>)
    requires ValidTuning(t) && Inv(t, s) && CanRun(t, s, events) && NoOpen(events)
    ensures var end := Run(t, s, events);
            end.minted + (if end.stopped then 0 else end.timers + t.maxRetries - end.attempt) <=
            s.minted + (if s.stopped then 0 else s.timers + t.maxRetries - s.attempt)
    decreases |events|
  {
    if events != [] {
      assert events[0] in events && forall ev :: ev in events[1..] ==> ev in events;
      StepKeeps(t, s, events[0]);
      RetriesAreSpent(t, Step(t, s, events[0]), events[1..]);
    }
  }

  /** At most the budget of sockets is minted in any stretch of any run without an open, and every delay is capped. */
  lemma RetriesAreBounded(t: Tuning, before: seq<Event>, events: seq<Event>)
    requires ValidTuning(t) && CanRun(t, Init(), before) && CanRun(t, Run(t, Init(), before), events) && NoOpen(events)
    ensures var s, end := Run(t, Init(), before), Run(t, Run(t, Init(), before), events);
            && end.minted - s.minted <= t.maxRetries
            && forall d :: d in end.delays ==> d <= Round(t.cap + t.cap * t.jitter)
  {
    RunKeeps(t, Init(), before);
    var s := Run(t, Init(), before);
    RunKeeps(t, s, events);
    RetriesAreSpent(t, s, events);
  }

  // ---- The whole budget is used ----

  /** The newest socket closes for no policy reason and the timer of the retry fires, as often as there are random
  draws. */
  function Failing(s: State, draws: seq<real>): seq<Event> {
    if draws == [] then []
    else Failing(s, draws[..|draws| - 1]) +
         [Closed(s.inner + |draws| - 1, CloseEvent(Some(1006)), draws[|draws| - 1]), TimerFired]
  }

  function Delays(t: Tuning, draws: seq<real>): seq<int> {
    if draws == [] then []
    else Delays(t, draws[..|draws| - 1]) + [BackoffDelay(t, |draws| - 1, draws[|draws| - 1])]
  }

  lemma {:induction false} RunOn(t: Tuning, s: State, a: seq<Event>, b: seq<Event>)
    requires CanRun(t, s, a) && CanRun(t, Run(t, s, a), b)
    ensures CanRun(t, s, a + b) && Run(t, s, a + b) == Run(t, Run(t, s, a), b)
    decreases |a|
  {
    if a == [] {
      assert a + b == b;
    } else {
      assert (a + b)[0] == a[0] && (a + b)[1..] == a[1..] + b;
      RunOn(t, Step(t, s, a[0]), a[1..], b);
    }
  }

  lemma TwoEvents(t: Tuning, s: State, a: Event, b: Event)
    requires Enabled(s, a) && Enabled(Step(t, s, a), b)
    ensures CanRun(t, s, [a, b]) && Run(t, s, [a, b]) == Step(t, Step(t, s, a), b)
  {
    assert [a, b][1..] == [b] && [b][1..] == [];
    assert Run(t, Step(t, s, a), [b]) == Run(t, Step(t, Step(t, s, a), b), []);
  }

  /** Once a connection has opened, each of up to `maxRetries` failures in a row is healed by one more socket, with the
  delays of the schedule, and an open after them is reported as a recovery; only the next failure is surfaced. */
  lemma {:induction false} WholeBudgetIsUsed(t: Tuning, s: State, draws: seq<real>)
    requires ValidTuning(t) && Inv(t, s) && !s.stopped && s.inner !in s.dead && s.attempt == 0
    requires |draws| <= t.maxRetries && forall i :: 0 <= i < |draws| ==> 0.0 <= draws[i] <= 1.0
    ensures CanRun(t, s, Failing(s, draws))
    ensures var end := Run(t, s, Failing(s, draws));
            && Inv(t, end) && !end.stopped && end.surfaced == [] && end.inner == s.inner + |draws| &&
                end.inner !in end.dead
            && end.minted == end.inner + 1 && end.timers == 0 && end.attempt == |draws|
            && end.delays == s.delays + Delays(t, draws) && (draws != [] ==> end.reconnectedPending)
    ensures var end := Run(t, s, Failing(s, draws));
            |draws| == t.maxRetries ==>
              Step(t, end, Closed(end.inner, CloseEvent(Some(1006)), 0.0)).surfaced == [CloseEvent(None)]
    decreases |draws|
  {
    if draws != [] {
      var n := |draws| - 1;
      WholeBudgetIsUsed(t, s, draws[..n]);
      var mid := Run(t, s, Failing(s, draws[..n]));
      var close := Closed(s.inner + n, CloseEvent(Some(1006)), draws[n]);
      StepKeeps(t, mid, close);
      StepKeeps(t, Step(t, mid, close), TimerFired);
      TwoEvents(t, mid, close, TimerFired);
      RunOn(t, s, Failing(s, draws[..n]), [close, TimerFired]);
      assert s.delays + Delays(t, draws[..n]) + [BackoffDelay(t, n, draws[n])] == s.delays + Delays(t, draws);
    }
  }

  /** An open gives the whole budget back, and is reported as a recovery exactly after a retry. */
  lemma OpenRestoresBudget(t: Tuning, s: State)
    requires Inv(t, s) && Enabled(s, Opened(s.inner))
    ensures var open := Step(t, s, Opened(s.inner));
            open.attempt == 0 && !open.reconnectedPending && Inv(t, open) == Inv(t, s) &&
            open.statuses == s.statuses + if s.reconnectedPending then [Reconnected] else []
  {
    assert s.statuses + [] == s.statuses;
  }

  /** It is never silently dead: until it stops, the newest socket is alive or exactly one retry is on its way. */
  lemma NeverStranded(t: Tuning, events: seq<Event>)
    requires ValidTuning(t) && CanRun(t, Init(), events)
    ensures var s := Run(t, Init(), events);
            !s.stopped ==> (s.inner !in s.dead && s.timers == 0) || (s.inner in s.dead && s.timers == 1)
    ensures var s := Run(t, Init(), events); forall k :: 0 <= k < s.minted && k !in s.dead ==> k == s.inner
  {
    RunKeeps(t, Init(), events);
  }
}
