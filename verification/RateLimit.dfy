/** The relay's per-connection rate limit: a token bucket over frames and over bytes, debited together. */
module RateLimit {
  import opened Wrappers

  datatype Limit = Limit(frames: real, bytes: real)

  /** Tokens in hand and when they were last topped up. */
  datatype Tokens = Tokens(frames: real, bytes: real, last: real)

  datatype Call = Call(time: real, size: nat)

  predicate ValidLimit(l: Limit) { l.frames >= 0.0 && l.bytes >= 0.0 }

  /** The time a call sees pass; a clock that steps back counts as standing still. */
  function Elapsed(last: real, time: real): real { if time < last then 0.0 else time - last }

  function Refilled(l: Limit, k: Tokens, time: real): Tokens {
    var elapsed := Elapsed(k.last, time);
    Tokens(Min(l.frames, k.frames + elapsed * l.frames), Min(l.bytes, k.bytes + elapsed * l.bytes), time)
  }

  predicate Accepts(l: Limit, k: Tokens, call: Call) {
    var full := Refilled(l, k, call.time);
    full.frames >= 1.0 && full.bytes >= call.size as real
  }

  /** The tokens after a call: topped up, and debited if the call is accepted. */
  function After(l: Limit, k: Tokens, call: Call): Tokens {
    var full := Refilled(l, k, call.time);
    if Accepts(l, k, call) then full.(frames := full.frames - 1.0, bytes := full.bytes - call.size as real) else full
  }

  class RateBucket {
    const limit: Limit
    var frameTokens: real
    var byteTokens: real
    var last: real

    function Value(): Tokens
      reads this
    {
      Tokens(frameTokens, byteTokens, last)
    }

    /** A new bucket is full. */
    constructor (limit: Limit, now: real)
      ensures this.limit == limit && Value() == Tokens(limit.frames, limit.bytes, now)
    {
      this.limit := limit;
      frameTokens, byteTokens, last := limit.frames, limit.bytes, now;
    }

    method Allow(now: real, size: nat) returns (ok: bool)
      modifies this
      ensures ok == Accepts(limit, old(Value()), Call(now, size))
      ensures Value() == After(limit, old(Value()), Call(now, size))
      ensures var passed := if now >= old(last) then now - old(last) else 0.0;
              var frames := Min(limit.frames, old(frameTokens) + passed * limit.frames);
              var bytes := Min(limit.bytes, old(byteTokens) + passed * limit.bytes);
              && (ok <==> frames >= 1.0 && bytes >= size as real) && last == now
              && frameTokens == (if ok then frames - 1.0 else frames)
              && byteTokens == (if ok then bytes - size as real else bytes)
    {
      var elapsed := now - last;
      if elapsed < 0.0 { elapsed := 0.0; }
      last := now;
      frameTokens := Min(limit.frames, frameTokens + elapsed * limit.frames);
      byteTokens := Min(limit.bytes, byteTokens + elapsed * limit.bytes);
      if frameTokens < 1.0 || byteTokens < size as real { return false; }
      frameTokens := frameTokens - 1.0;
      byteTokens := byteTokens - size as real;
      return true;
    }
  }

  // ---- Runs ----

  function AfterAll(l: Limit, k: Tokens, calls: seq<Call>): Tokens
    decreases |calls|
  {
    if calls == [] then k else AfterAll(l, After(l, k, calls[0]), calls[1..])
  }

  function AcceptedFrames(l: Limit, k: Tokens, calls: seq<Call>): nat
    decreases |calls|
  {
    if calls == [] then 0
    else (if Accepts(l, k, calls[0]) then 1 else 0) + AcceptedFrames(l, After(l, k, calls[0]), calls[1..])
  }

  function AcceptedBytes(l: Limit, k: Tokens, calls: seq<Call>): nat
    decreases |calls|
  {
    if calls == [] then 0
    else (if Accepts(l, k, calls[0]) then calls[0].size else 0) + AcceptedBytes(l, After(l, k, calls[0]), calls[1..])
  }

  /** The time the calls see pass, forward steps only. */
  function TotalElapsed(last: real, calls: seq<Call>): (t: real)
    ensures t >= 0.0
    decreases |calls|
  {
    if calls == [] then 0.0 else Elapsed(last, calls[0].time) + TotalElapsed(calls[0].time, calls[1..])
  }

  predicate InBounds(l: Limit, k: Tokens) { 0.0 <= k.frames <= l.frames && 0.0 <= k.bytes <= l.bytes }

  lemma ElapsedEarns(rate: real, elapsed: real)
    requires rate >= 0.0 && elapsed >= 0.0
    ensures elapsed * rate >= 0.0
  {
  }

  lemma StaysInBounds(l: Limit, k: Tokens, call: Call)
    requires ValidLimit(l) && InBounds(l, k)
    ensures InBounds(l, After(l, k, call))
  {
    ElapsedEarns(l.frames, Elapsed(k.last, call.time));
    ElapsedEarns(l.bytes, Elapsed(k.last, call.time));
  }

  /** What a rate yields in a time. */
  function Earn(rate: real, t: real): real { t * rate }

  lemma Earned(rate: real, a: real, b: real)
    ensures Earn(rate, a + b) == Earn(rate, a) + Earn(rate, b)
  {
  }

  /** One call spends no more than was in hand and has been earned since the last. */
  lemma CallSpends(l: Limit, k: Tokens, call: Call)
    ensures (if Accepts(l, k, call) then 1.0 else 0.0) + After(l, k, call).frames <= k.frames + Earn(l.frames,
            Elapsed(k.last, call.time))
    ensures (if Accepts(l, k, call) then call.size as real else 0.0) + After(l, k, call).bytes <=
            k.bytes + Earn(l.bytes, Elapsed(k.last, call.time))
    ensures After(l, k, call).last == call.time
  {
  }

  lemma Chain(rate: real, spent: real, rest: real, was: real, mid: real, end: real, e: real, t: real)
    requires spent + mid <= was + Earn(rate, e) && rest + end <= mid + Earn(rate, t)
    ensures spent + rest + end <= was + Earn(rate, e + t)
  {
    hide Earn;
    Earned(rate, e, t);
  }

  lemma {:induction false} RunStaysInBounds(l: Limit, k: Tokens, calls: seq<Call>)
    requires ValidLimit(l) && InBounds(l, k)
    ensures InBounds(l, AfterAll(l, k, calls))
    decreases |calls|
  {
    if calls != [] {
      hide After, InBounds;
      StaysInBounds(l, k, calls[0]);
      RunStaysInBounds(l, After(l, k, calls[0]), calls[1..]);
    }
  }

  /** The frames accepted, and those still in hand, were in hand before or have been earned since. */
  lemma {:induction false} FramesWereEarned(l: Limit, k: Tokens, calls: seq<Call>)
    ensures AcceptedFrames(l, k, calls) as real + AfterAll(l, k, calls).frames <=
            k.frames + Earn(l.frames, TotalElapsed(k.last, calls))
    decreases |calls|
  {
    if calls != [] {
      hide After, Accepts, Elapsed, Earn;
      var next := After(l, k, calls[0]);
      CallSpends(l, k, calls[0]);
      FramesWereEarned(l, next, calls[1..]);
      Chain(l.frames, if Accepts(l, k, calls[0]) then 1.0 else 0.0, AcceptedFrames(l, next, calls[1..]) as real,
            k.frames, next.frames, AfterAll(l, next, calls[1..]).frames,
            Elapsed(k.last, calls[0].time), TotalElapsed(calls[0].time, calls[1..]));
    }
  }

  lemma {:induction false} BytesWereEarned(l: Limit, k: Tokens, calls: seq<Call>)
    ensures AcceptedBytes(l, k, calls) as real + AfterAll(l, k, calls).bytes <=
            k.bytes + Earn(l.bytes, TotalElapsed(k.last, calls))
    decreases |calls|
  {
    if calls != [] {
      hide After, Accepts, Elapsed, Earn;
      var next := After(l, k, calls[0]);
      CallSpends(l, k, calls[0]);
      BytesWereEarned(l, next, calls[1..]);
      Chain(l.bytes, if Accepts(l, k, calls[0]) then calls[0].size as real else 0.0,
            AcceptedBytes(l, next, calls[1..]) as real, k.bytes, next.bytes, AfterAll(l, next, calls[1..]).bytes,
            Elapsed(k.last, calls[0].time), TotalElapsed(calls[0].time, calls[1..]));
    }
  }

  /** From any point of any run on, at most `limit * (1 + T)` frames and bytes are accepted in `T` seconds, and the
  tokens stay between zero and the limit. */
  lemma RateIsBounded(l: Limit, start: real, before: seq<Call>, calls: seq<Call>)
    requires ValidLimit(l)
    ensures var k := AfterAll(l, Tokens(l.frames, l.bytes, start), before);
            && InBounds(l, k) && InBounds(l, AfterAll(l, k, calls))
            && AcceptedFrames(l, k, calls) as real <= l.frames * (1.0 + TotalElapsed(k.last, calls))
            && AcceptedBytes(l, k, calls) as real <= l.bytes * (1.0 + TotalElapsed(k.last, calls))
  {
    hide AfterAll, AcceptedFrames, AcceptedBytes, TotalElapsed;
    RunStaysInBounds(l, Tokens(l.frames, l.bytes, start), before);
    var k := AfterAll(l, Tokens(l.frames, l.bytes, start), before);
    RunStaysInBounds(l, k, calls);
    FramesWereEarned(l, k, calls);
    BytesWereEarned(l, k, calls);
    Earned(l.frames, 1.0, TotalElapsed(k.last, calls));
    Earned(l.bytes, 1.0, TotalElapsed(k.last, calls));
  }

  // ---- A sender that keeps to the rate is never cut off ----

  /** Each frame comes late enough to have earned itself and its bytes. */
  predicate Paced(l: Limit, last: real, calls: seq<Call>)
    decreases |calls|
  {
    calls == [] || (WellSpaced(l, last, calls[0]) && Paced(l, calls[0].time, calls[1..]))
  }

  predicate WellSpaced(l: Limit, last: real, call: Call) {
    Elapsed(last, call.time) * l.frames >= 1.0 && Elapsed(last, call.time) * l.bytes >= call.size as real
  }

  lemma WellSpacedIsAccepted(l: Limit, k: Tokens, call: Call)
    requires InBounds(l, k) && WellSpaced(l, k.last, call)
    ensures Accepts(l, k, call) <==> l.frames >= 1.0 && l.bytes >= call.size as real
  {
  }

  /** Every frame of a paced sender is accepted, from any state of the bucket, as long as no frame is over the limit by
  itself. */
  lemma {:induction false} PacedIsAccepted(l: Limit, k: Tokens, calls: seq<Call>)
    requires ValidLimit(l) && l.frames >= 1.0 && InBounds(l, k) && Paced(l, k.last, calls)
    requires forall c :: c in calls ==> c.size as real <= l.bytes
    ensures AcceptedFrames(l, k, calls) == |calls|
    decreases |calls|
  {
    if calls != [] {
      hide WellSpaced, InBounds, Accepts;
      assert calls[0] in calls;
      WellSpacedIsAccepted(l, k, calls[0]);
      StaysInBounds(l, k, calls[0]);
      PacedIsAccepted(l, After(l, k, calls[0]), calls[1..]);
    }
  }
}
