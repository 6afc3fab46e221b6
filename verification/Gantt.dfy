/** The working-day calendar of a Gantt chart: shifted starts, stretched durations, chained tasks. */
module Gantt {
  import opened Wrappers

  /** The holidays, as whole days since the epoch, and whether weekends are off too. */
  datatype Calendar = Calendar(holidays: set<int>, weekends: bool)

  /** A stretch of time. */
  datatype Bar = Bar(start: real, end: real)

  const EPSILON := 0.000000001

  /** Day 0, 1 January 1970, is a Thursday. */
  predicate IsWeekend(day: int) { (day + 4) % 7 == 0 || (day + 4) % 7 == 6 }

  /** So of the days 0 to 6 the third and the fourth, Saturday and Sunday, are off, and every week is like that one. */
  lemma WeekendsAre(day: int, week: int)
    requires 0 <= day < 7
    ensures IsWeekend(7 * week + day) <==> day == 2 || day == 3
  {
  }

  predicate IsWhole(x: real) { x == x.Floor as real }

  /** A holiday is looked up by its exact day number; a weekend by the day an instant falls on. */
  predicate IsExcluded(c: Calendar, day: real) {
    (IsWhole(day) && day.Floor in c.holidays) || (c.weekends && IsWeekend(day.Floor))
  }

  /** The calendar as it is meant: whole days off. */
  predicate DayOff(c: Calendar, day: int) { day in c.holidays || (c.weekends && IsWeekend(day)) }

  // ---- There is always another working day ----

  lemma {:induction false} BoundAbove(days: set<int>) returns (b: int)
    ensures forall d :: d in days ==> d < b
    decreases |days|
  {
    if day :| day in days {
      var rest := BoundAbove(days - {day});
      b := if rest > day then rest else day + 1;
      forall d | d in days ensures d < b {
        if d != day { assert d in days - {day}; }
      }
    } else {
      b := 0;
    }
  }

  lemma Later(d: real, k: nat)
    ensures (d + k as real).Floor == d.Floor + k && (IsWhole(d + k as real) <==> IsWhole(d))
  {
  }

  lemma WorkingAhead(c: Calendar, d: real) returns (k: nat)
    ensures !OffAfter(c, d, k)
  {
    var b := BoundAbove(c.holidays);
    var m: nat := if b > d.Floor then b - d.Floor else 0;
    k := if IsWeekend(d.Floor + m) then (if IsWeekend(d.Floor + m + 1) then m + 2 else m + 1) else m;
    Later(d, k);
  }

  predicate OffAfter(c: Calendar, d: real, k: nat) { IsExcluded(c, d + k as real) }

  /** `r` is the first working day reached from `d` by whole days. */
  ghost predicate FirstWorking(c: Calendar, d: real, r: real) {
    exists k: nat :: FirstAt(c, d, k, r)
  }

  ghost predicate FirstAt(c: Calendar, d: real, k: nat, r: real) { FirstAfter(c, d, k) && r == d + k as real }

  ghost predicate FirstAfter(c: Calendar, d: real, k: nat) {
    !OffAfter(c, d, k) && forall i: nat :: i < k ==> OffAfter(c, d, i)
  }

  method NextWorking(c: Calendar, day: real) returns (d: real)
    ensures FirstWorking(c, day, d)
  {
    ghost var limit := WorkingAhead(c, day);
    ghost var k: nat := 0;
    d := day;
    while IsExcluded(c, d)
      invariant d == day + k as real && k <= limit
      invariant forall i: nat :: i < k ==> OffAfter(c, day, i)
      decreases limit - k
    {
      d := d + 1.0;
      k := k + 1;
    }
    assert FirstAt(c, day, k, d);
  }

  // ---- Working days in a span ----

  /** The working days of the half-open span `a..b`. */
  function WorkingDays(c: Calendar, a: int, b: int): nat
    decreases b - a
  {
    if a >= b then 0 else WorkingDays(c, a, b - 1) + if DayOff(c, b - 1) then 0 else 1
  }

  /** `a..b` holds exactly `n` working days and ends with the last of them. */
  ghost predicate Spans(c: Calendar, a: int, b: int, n: nat) {
    a <= b && WorkingDays(c, a, b) == n && (if n == 0 then a == b else !DayOff(c, b - 1))
  }

  lemma {:induction false} WorkingDaysGrow(c: Calendar, a: int, b: int, b': int)
    requires a <= b <= b'
    ensures WorkingDays(c, a, b) <= WorkingDays(c, a, b')
    decreases b' - b
  {
    if b < b' { WorkingDaysGrow(c, a, b, b' - 1); }
  }

  /** There is one such end. */
  lemma SpansIsUnique(c: Calendar, a: int, b: int, b': int, n: nat)
    requires Spans(c, a, b, n) && Spans(c, a, b', n)
    ensures b == b'
  {
    if b < b' { WorkingDaysGrow(c, a, b, b' - 1); }
    if b' < b { WorkingDaysGrow(c, a, b', b - 1); }
  }

  // ---- Spending a duration ----

  /** The steps a remaining duration still takes. */
  ghost function StepsLeft(rest: real): nat { if rest <= 0.0 then 0 else rest.Floor + 1 }

  lemma {:induction false} LeastAhead(c: Calendar, d: real, k: nat) returns (n: nat)
    requires !OffAfter(c, d, k)
    ensures FirstAfter(c, d, n)
  {
    if i: nat :| i < k && !OffAfter(c, d, i) { n := LeastAhead(c, d, i); } else { n := k; }
  }

  lemma SomeAhead(c: Calendar, d: real)
    ensures exists k: nat :: FirstAfter(c, d, k)
  {
    var k := WorkingAhead(c, d);
    var n := LeastAhead(c, d, k);
  }

  /** The days to skip from `d`. */
  ghost function Ahead(c: Calendar, d: real): (k: nat)
    ensures FirstAfter(c, d, k)
  {
    SomeAhead(c, d);
    var k: nat :| FirstAfter(c, d, k);
    k
  }

  lemma SkipStep(c: Calendar, d: real)
    requires IsExcluded(c, d)
    ensures Ahead(c, d + 1.0) < Ahead(c, d)
  {
    var k, k' := Ahead(c, d), Ahead(c, d + 1.0);
    assert OffAfter(c, d, 0);
    assert d + 1.0 + (k - 1) as real == d + k as real;
    assert !OffAfter(c, d + 1.0, k - 1);
  }

  function Step(rest: real): real { if rest < 1.0 then rest else 1.0 }

  /** Where a remaining duration ends. */
  ghost function WorkedEnd(c: Calendar, day: real, rest: real): real
    decreases StepsLeft(rest), Ahead(c, day)
  {
    if rest <= EPSILON then day
    else if IsExcluded(c, day) then SkipStep(c, day); WorkedEnd(c, day + 1.0, rest)
    else WorkedEnd(c, day + Step(rest), rest - Step(rest))
  }

  /** The stretches of time in which a remaining duration is spent. */
  ghost function Worked(c: Calendar, day: real, rest: real): seq<Bar>
    decreases StepsLeft(rest), Ahead(c, day)
  {
    if rest <= EPSILON then []
    else if IsExcluded(c, day) then SkipStep(c, day); Worked(c, day + 1.0, rest)
    else [Bar(day, day + Step(rest))] + Worked(c, day + Step(rest), rest - Step(rest))
  }

  method WorkingEnd(c: Calendar, start: real, duration: real) returns (day: real)
    ensures day == WorkedEnd(c, start, duration)
  {
    var worked := 0.0;
    day := start;
    while duration - worked > EPSILON
      invariant WorkedEnd(c, day, duration - worked) == WorkedEnd(c, start, duration)
      decreases StepsLeft(duration - worked), Ahead(c, day)
    {
      if IsExcluded(c, day) {
        SkipStep(c, day);
        day := day + 1.0;
      } else {
        var step := if duration - worked < 1.0 then duration - worked else 1.0;
        assert duration - (worked + step) == duration - worked - Step(duration - worked);
        worked := worked + step;
        day := day + step;
      }
    }
  }

  /** What is spent of a duration: a rest too short to matter is dropped. */
  function Spent(duration: real): real {
    if duration <= EPSILON then 0.0
    else if duration - duration.Floor as real <= EPSILON then duration.Floor as real else duration
  }

  lemma SpentStep(rest: real)
    requires rest > EPSILON
    ensures Spent(rest) == Step(rest) + Spent(rest - Step(rest)) && 0.0 < Step(rest) <= 1.0
    ensures Spent(rest - Step(rest)) >= 0.0
  {
    if rest >= 1.0 { assert (rest - 1.0).Floor == rest.Floor - 1; }
  }

  ghost function Total(stretches: seq<Bar>): real {
    if stretches == [] then 0.0 else stretches[0].end - stretches[0].start + Total(stretches[1..])
  }

  /** `stretches` follow one another from `from` on, and `to` is where the last one ends. */
  ghost predicate InTurn(stretches: seq<Bar>, from: real, to: real) {
    if stretches == [] then from == to
    else from <= stretches[0].start < stretches[0].end && InTurn(stretches[1..], stretches[0].end, to)
  }

  lemma {:induction false} InTurnEarlier(stretches: seq<Bar>, from: real, from': real, to: real)
    requires stretches != [] && InTurn(stretches, from, to) && from' <= from
    ensures InTurn(stretches, from', to)
  {
  }

  /** From any start, the stretches follow one another up to the end, none begins on an instant seen to be off, and
  together they are the duration. */
  lemma {:induction false} WorkedAddsUp(c: Calendar, day: real, rest: real)
    ensures Total(Worked(c, day, rest)) == Spent(rest)
    ensures InTurn(Worked(c, day, rest), day, WorkedEnd(c, day, rest))
    ensures forall s :: s in Worked(c, day, rest) ==> !IsExcluded(c, s.start)
    decreases StepsLeft(rest), Ahead(c, day)
  {
    if rest <= EPSILON {
    } else if IsExcluded(c, day) {
      SkipStep(c, day);
      WorkedAddsUp(c, day + 1.0, rest);
      SomethingSpent(c, day + 1.0, rest);
      InTurnEarlier(Worked(c, day + 1.0, rest), day + 1.0, day, WorkedEnd(c, day, rest));
    } else {
      SpentStep(rest);
      WorkedAddsUp(c, day + Step(rest), rest - Step(rest));
      var more := Worked(c, day + Step(rest), rest - Step(rest));
      assert ([Bar(day, day + Step(rest))] + more)[1..] == more;
    }
  }

  lemma {:induction false} SomethingSpent(c: Calendar, day: real, rest: real)
    requires rest > EPSILON
    ensures Worked(c, day, rest) != []
    decreases Ahead(c, day)
  {
    if IsExcluded(c, day) {
      SkipStep(c, day);
      SomethingSpent(c, day + 1.0, rest);
    }
  }

  // ---- From a whole day on, durations are honoured ----

  /** The working time of the half-open span from the beginning of day `a` to `end`. */
  function WorkTime(c: Calendar, a: int, end: real): real {
    WorkingDays(c, a, end.Floor) as real + if DayOff(c, end.Floor) then 0.0 else end - end.Floor as real
  }

  function LastDay(end: real): int { if IsWhole(end) then end.Floor - 1 else end.Floor }

  /** The span from day `a` to `end` holds exactly `amount` of working time and ends as soon as it does. */
  ghost predicate Fills(c: Calendar, a: int, end: real, amount: real) {
    a as real <= end && WorkTime(c, a, end) == amount && (end == a as real || !DayOff(c, LastDay(end)))
  }

  lemma {:induction false} WorkingDaysFront(c: Calendar, a: int, b: int)
    requires a < b
    ensures WorkingDays(c, a, b) == WorkingDays(c, a + 1, b) + if DayOff(c, a) then 0 else 1
    decreases b - a
  {
    if a + 1 < b { WorkingDaysFront(c, a, b - 1); }
  }

  /** One day on: the span gains the first day's working time. */
  lemma FillsFront(c: Calendar, a: int, end: real, amount: real)
    requires Fills(c, a + 1, end, amount) && (DayOff(c, a) ==> amount > 0.0)
    ensures Fills(c, a, end, amount + if DayOff(c, a) then 0.0 else 1.0)
  {
    WorkingDaysFront(c, a, end.Floor);
  }

  /** From the beginning of a day any duration is honoured, whole or not. */
  lemma {:induction false} WholeStartFills(c: Calendar, a: int, rest: real)
    ensures Fills(c, a, WorkedEnd(c, a as real, rest), Spent(rest))
    decreases StepsLeft(rest), Ahead(c, a as real)
  {
    if rest <= EPSILON {
    } else if IsExcluded(c, a as real) {
      SkipStep(c, a as real);
      WholeStartFills(c, a + 1, rest);
      SpentStep(rest);
      FillsFront(c, a, WorkedEnd(c, (a + 1) as real, rest), Spent(rest));
      assert a as real + 1.0 == (a + 1) as real;
    } else {
      SpentStep(rest);
      if rest >= 1.0 {
        WholeStartFills(c, a + 1, rest - 1.0);
        FillsFront(c, a, WorkedEnd(c, (a + 1) as real, rest - 1.0), Spent(rest - 1.0));
        assert a as real + 1.0 == (a + 1) as real;
      } else {
        assert (a as real + rest).Floor == a;
      }
    }
  }

  lemma WholeRest(whole: int, end: real, rest: int)
    requires whole as real <= end < whole as real + 1.0 && end == whole as real + rest as real
    ensures rest == 0 && end == whole as real
  {
  }

  /** A whole amount is a whole span. */
  lemma WholeFills(c: Calendar, a: int, end: real, n: nat)
    requires Fills(c, a, end, n as real)
    ensures IsWhole(end) && Spans(c, a, end.Floor, n)
  {
    if !DayOff(c, end.Floor) { WholeRest(end.Floor, end, n - WorkingDays(c, a, end.Floor)); }
  }

  // ---- When a duration is spent on working days only ----

  /** The half-open span `a..b` has an instant in day `d`. */
  predicate Touches(a: real, b: real, d: int) { a < b && a < (d + 1) as real && d as real < b }

  ghost predicate ClearOfDaysOff(c: Calendar, a: real, b: real) { forall d :: Touches(a, b, d) ==> !DayOff(c, d) }

  /** No instant of the duration is spent on a day off. */
  ghost predicate OnWorkingDays(c: Calendar, start: real, duration: real) {
    forall s :: s in Worked(c, start, duration) ==> ClearOfDaysOff(c, s.start, s.end)
  }

  lemma {:induction false} WholeStartWorks(c: Calendar, a: int, rest: real)
    ensures OnWorkingDays(c, a as real, rest)
    decreases StepsLeft(rest), Ahead(c, a as real)
  {
    if rest <= EPSILON {
    } else {
      assert a as real + 1.0 == (a + 1) as real;
      if IsExcluded(c, a as real) {
        SkipStep(c, a as real);
        WholeStartWorks(c, a + 1, rest);
      } else {
        forall d | Touches(a as real, a as real + Step(rest), d) ensures !DayOff(c, d) { assert d == a; }
        var next := a as real + Step(rest);
        if rest >= 1.0 { WholeStartWorks(c, a + 1, rest - 1.0); } else { assert Worked(c, next, 0.0) == []; }
        assert Worked(c, a as real, rest) == [Bar(a as real, next)] + Worked(c, next, rest - Step(rest));
      }
    }
  }

  /** Away from days off nothing is skipped. */
  lemma {:induction false} ClearIsStraight(c: Calendar, day: real, rest: real)
    requires ClearOfDaysOff(c, day, day + Spent(rest))
    ensures OnWorkingDays(c, day, rest) && WorkedEnd(c, day, rest) == day + Spent(rest)
    decreases StepsLeft(rest), Ahead(c, day)
  {
    if rest > EPSILON {
      SpentStep(rest);
      assert Touches(day, day + Spent(rest), day.Floor);
      var next := day + Step(rest);
      forall d | Touches(next, next + Spent(rest - Step(rest)), d) ensures !DayOff(c, d) {
        assert Touches(day, day + Spent(rest), d);
      }
      ClearIsStraight(c, next, rest - Step(rest));
      forall d | Touches(day, next, d) ensures !DayOff(c, d) { assert Touches(day, day + Spent(rest), d); }
    }
  }

  /** Begun inside a day, on an instant not seen to be off, a duration that meets a day off is worked through it. */
  lemma {:induction false} PartDayWorksThrough(c: Calendar, day: real, rest: real, off: int)
    requires !IsWhole(day) && !IsExcluded(c, day) && Touches(day, day + Spent(rest), off) && DayOff(c, off)
    ensures !OnWorkingDays(c, day, rest)
    decreases StepsLeft(rest)
  {
    assert rest > EPSILON;
    SpentStep(rest);
    var first, next := Bar(day, day + Step(rest)), day + Step(rest);
    assert first in Worked(c, day, rest);
    if Touches(day, next, off) {
      assert !ClearOfDaysOff(c, first.start, first.end);
    } else {
      PartDayGoesOn(c, day, rest, off);
    }
  }

  lemma {:induction false} PartDayGoesOn(c: Calendar, day: real, rest: real, off: int)
    requires rest > EPSILON && !IsWhole(day) && !IsExcluded(c, day)
    requires Touches(day, day + Spent(rest), off) && DayOff(c, off) && !Touches(day, day + Step(rest), off)
    ensures !OnWorkingDays(c, day, rest)
    decreases StepsLeft(rest), 0
  {
    SpentStep(rest);
    assert rest >= 1.0;
    Later(day, 1);
    var first, next := Bar(day, day + 1.0), day + 1.0;
    var more := Worked(c, next, rest - 1.0);
    assert Worked(c, day, rest) == [first] + more;
    if IsExcluded(c, next) {
      assert Touches(day, next, next.Floor) && DayOff(c, next.Floor);
      assert first in Worked(c, day, rest);
    } else {
      PartDayWorksThrough(c, next, rest - 1.0, off);
      var s :| s in more && !ClearOfDaysOff(c, s.start, s.end);
      assert s in Worked(c, day, rest);
    }
  }

  /** From an instant not seen to be off, a duration is spent on working days only exactly when it begins with a day or
  would meet no day off if nothing were skipped. */
  lemma SpentOnWorkingDaysExactly(c: Calendar, start: real, duration: real)
    requires !IsExcluded(c, start)
    ensures OnWorkingDays(c, start, duration) <==> IsWhole(start) || ClearOfDaysOff(c, start, start + Spent(duration))
  {
    if IsWhole(start) {
      WholeStartWorks(c, start.Floor, duration);
    } else if ClearOfDaysOff(c, start, start + Spent(duration)) {
      ClearIsStraight(c, start, duration);
    } else {
      var off :| Touches(start, start + Spent(duration), off) && DayOff(c, off);
      PartDayWorksThrough(c, start, duration, off);
    }
  }

  // ---- Chained tasks ----

  datatype Start = OnDate(day: int) | After(refs: seq<string>)

  datatype Task = Task(id: string, start: Start, duration: real)

  /** The end of the last of the first `i` tasks called `ref`. */
  function EndOf(tasks: seq<Task>, bars: seq<Bar>, i: nat, ref: string): (r: Option<real>)
    requires i <= |tasks| && i <= |bars|
    ensures r.None? <==> forall j :: 0 <= j < i ==> tasks[j].id != ref
  {
    if i == 0 then None
    else if tasks[i - 1].id == ref then Some(bars[i - 1].end)
    else EndOf(tasks, bars, i - 1, ref)
  }

  /** `latest` is the largest of the ends the references stand for. */
  ghost predicate IsLatest(tasks: seq<Task>, bars: seq<Bar>, i: nat, refs: seq<string>, latest: real)
    requires i <= |tasks| && i <= |bars|
  {
    && (forall ref :: ref in refs ==> EndOf(tasks, bars, i, ref).Some? && EndOf(tasks, bars, i, ref).value <= latest)
    && (exists ref :: ref in refs && EndOf(tasks, bars, i, ref) == Some(latest))
  }

  /** The day task `i` may begin at: its date, or the latest end it waits for. */
  ghost predicate IsBase(tasks: seq<Task>, bars: seq<Bar>, i: nat, base: real)
    requires i < |tasks| && i <= |bars|
  {
    match tasks[i].start
    case OnDate(day) => base == day as real
    case After(refs) => IsLatest(tasks, bars, i, refs, base)
  }

  ghost predicate ScheduledFrom(c: Calendar, base: real, t: Task, bar: Bar) {
    FirstWorking(c, base, bar.start) && bar.end == WorkedEnd(c, bar.start, t.duration)
  }

  /** Task `i` starts on the first working day from its base and lasts its duration in working days. */
  ghost predicate Scheduled(c: Calendar, tasks: seq<Task>, bars: seq<Bar>, i: nat)
    requires i < |tasks| && i < |bars|
  {
    exists base :: IsBase(tasks, bars, i, base) && ScheduledFrom(c, base, tasks[i], bars[i])
  }

  ghost predicate Waits(tasks: seq<Task>, i: nat, ref: string)
    requires i < |tasks|
  {
    tasks[i].start.After? && ref in tasks[i].start.refs
  }

  /** Some task starts after one that is not declared before it. */
  ghost predicate Unresolved(tasks: seq<Task>, n: nat)
    requires n <= |tasks|
  {
    exists i, ref {:trigger Waits(tasks, i, ref)} ::
      0 <= i < n && Waits(tasks, i, ref) && forall j :: 0 <= j < i ==> tasks[j].id != ref
  }

  predicate ValidTasks(tasks: seq<Task>) {
    forall t :: t in tasks ==> t.duration >= 0.0 && (t.start.After? ==> t.start.refs != [])
  }

  ghost predicate EndsMatch(tasks: seq<Task>, bars: seq<Bar>, i: nat, ends: map<string, real>)
    requires i <= |tasks| && i <= |bars|
  {
    forall ref {:trigger EndOf(tasks, bars, i, ref)} :: EndOf(tasks, bars, i, ref) ==
        if ref in ends then Some(ends[ref]) else None
  }

  /** The latest end of the references, unless one of them is unknown. */
  method LatestEnd(ends: map<string, real>, refs: seq<string>) returns (latest: Option<real>)
    requires refs != []
    ensures latest.None? <==> exists ref :: ref in refs && ref !in ends
    ensures latest.Some? ==> (forall ref :: ref in refs ==> ref in ends && ends[ref] <= latest.value) &&
                             (exists ref :: ref in refs && ref in ends && ends[ref] == latest.value)
  {
    if refs[0] !in ends { return None; }
    latest := Some(ends[refs[0]]);
    for k := 1 to |refs|
      invariant latest.Some? && forall m :: 0 <= m < k ==> refs[m] in ends && ends[refs[m]] <= latest.value
      invariant exists m :: 0 <= m < k && refs[m] in ends && ends[refs[m]] == latest.value
    {
      if refs[k] !in ends { return None; }
      if ends[refs[k]] > latest.value { latest := Some(ends[refs[k]]); }
    }
  }

  lemma WholeShift(c: Calendar, base: real, start: real)
    requires FirstWorking(c, base, start)
    ensures !IsExcluded(c, start) && start >= base && (IsWhole(base) ==> IsWhole(start))
  {
    var k: nat :| FirstAt(c, base, k, start);
    Later(base, k);
  }

  /** Shifts the start to a working day and spends the duration. */
  method Place(c: Calendar, base: real, t: Task) returns (bar: Bar)
    ensures ScheduledFrom(c, base, t, bar)
  {
    var start := NextWorking(c, base);
    var end := WorkingEnd(c, start, t.duration);
    bar := Bar(start, end);
  }

  lemma {:induction false} EndOfSnoc(tasks: seq<Task>, bars: seq<Bar>, bar: Bar, i: nat, ref: string)
    requires i <= |tasks| && i <= |bars|
    ensures EndOf(tasks, bars + [bar], i, ref) == EndOf(tasks, bars, i, ref)
  {
    if i > 0 { EndOfSnoc(tasks, bars, bar, i - 1, ref); }
  }

  lemma BaseSnoc(tasks: seq<Task>, bars: seq<Bar>, bar: Bar, i: nat, base: real)
    requires i < |tasks| && i <= |bars| && IsBase(tasks, bars, i, base)
    ensures IsBase(tasks, bars + [bar], i, base)
  {
    forall ref ensures EndOf(tasks, bars + [bar], i, ref) == EndOf(tasks, bars, i, ref) {
      EndOfSnoc(tasks, bars, bar, i, ref);
    }
  }

  lemma ScheduledSnoc(c: Calendar, tasks: seq<Task>, bars: seq<Bar>, bar: Bar, i: nat)
    requires i < |bars| && i < |tasks| && Scheduled(c, tasks, bars, i)
    ensures Scheduled(c, tasks, bars + [bar], i)
  {
    var base :| IsBase(tasks, bars, i, base) && ScheduledFrom(c, base, tasks[i], bars[i]);
    BaseSnoc(tasks, bars, bar, i, base);
  }

  lemma EndsSnoc(tasks: seq<Task>, bars: seq<Bar>, bar: Bar, i: nat, ends: map<string, real>)
    requires i == |bars| < |tasks| && EndsMatch(tasks, bars, i, ends)
    ensures EndsMatch(tasks, bars + [bar], i + 1, ends[tasks[i].id := bar.end])
  {
    var ends' := ends[tasks[i].id := bar.end];
    forall ref ensures EndOf(tasks, bars + [bar], i + 1, ref) == if ref in ends' then Some(ends'[ref]) else None {
      EndOfSnoc(tasks, bars, bar, i, ref);
      assert EndOf(tasks, bars, i, ref) == if ref in ends then Some(ends[ref]) else None;
    }
  }

  /** The base of the next task, unless it waits for a task not yet seen. */
  method BaseOf(tasks: seq<Task>, ghost bars: seq<Bar>, ends: map<string, real>, i: nat) returns (base: Option<real>)
    requires i == |bars| < |tasks| && ValidTasks(tasks) && EndsMatch(tasks, bars, i, ends)
    ensures base.Some? ==> IsBase(tasks, bars, i, base.value) && forall ref :: Waits(tasks, i, ref) ==>
            EndOf(tasks, bars, i, ref).Some?
    ensures base.None? ==> exists ref :: Waits(tasks, i, ref) && EndOf(tasks, bars, i, ref).None?
  {
    match tasks[i].start
    case OnDate(day) => base := Some(day as real);
    case After(refs) =>
      assert tasks[i] in tasks;
      base := LatestEnd(ends, refs);
      if base.None? {
        var ref :| ref in refs && ref !in ends;
        assert Waits(tasks, i, ref) && EndOf(tasks, bars, i, ref).None?;
      } else {
        var ref :| ref in refs && ref in ends && ends[ref] == base.value;
        assert EndOf(tasks, bars, i, ref) == Some(base.value);
      }
  }

  lemma ResolvedSnoc(tasks: seq<Task>, bars: seq<Bar>, i: nat)
    requires i < |tasks| && i <= |bars| && !Unresolved(tasks, i)
    requires forall ref :: Waits(tasks, i, ref) ==> EndOf(tasks, bars, i, ref).Some?
    ensures !Unresolved(tasks, i + 1)
  {
  }

  /** Schedules the tasks in order. It fails exactly when a task waits for one that is not declared before it. */
  method Schedule(c: Calendar, tasks: seq<Task>) returns (r: Option<seq<Bar>>)
    requires ValidTasks(tasks)
    ensures r.None? <==> Unresolved(tasks, |tasks|)
    ensures r.Some? ==> |r.value| == |tasks| && forall i :: 0 <= i < |tasks| ==> Scheduled(c, tasks, r.value, i)
  {
    var ends: map<string, real>, bars: seq<Bar> := map[], [];
    for i := 0 to |tasks|
      invariant |bars| == i && EndsMatch(tasks, bars, i, ends) && !Unresolved(tasks, i)
      invariant forall k :: 0 <= k < i ==> Scheduled(c, tasks, bars, k)
    {
      hide Scheduled, EndsMatch, IsBase, FirstWorking, ScheduledFrom;
      var base := BaseOf(tasks, bars, ends, i);
      if base.None? { return None; }
      ResolvedSnoc(tasks, bars, i);
      assert tasks[i] in tasks;
      var bar := Place(c, base.value, tasks[i]);
      EndsSnoc(tasks, bars, bar, i, ends);
      forall k | 0 <= k < i ensures Scheduled(c, tasks, bars + [bar], k) { ScheduledSnoc(c, tasks, bars, bar, k); }
      NewScheduled(c, tasks, bars, bar, base.value);
      ends := ends[tasks[i].id := bar.end];
      bars := bars + [bar];
    }
    r := Some(bars);
  }

  lemma NewScheduled(c: Calendar, tasks: seq<Task>, bars: seq<Bar>, bar: Bar, base: real)
    requires |bars| < |tasks| && IsBase(tasks, bars, |bars|, base) && ScheduledFrom(c, base, tasks[|bars|], bar)
    ensures Scheduled(c, tasks, bars + [bar], |bars|)
  {
    BaseSnoc(tasks, bars, bar, |bars|, base);
  }

  // ---- Whole days ----

  ghost predicate WholeBar(bar: Bar) { IsWhole(bar.start) && IsWhole(bar.end) }

  lemma {:induction false} EndOfWhole(tasks: seq<Task>, bars: seq<Bar>, i: nat, ref: string)
    requires i <= |tasks| && i <= |bars| && forall j :: 0 <= j < i ==> WholeBar(bars[j])
    ensures EndOf(tasks, bars, i, ref).Some? ==> IsWhole(EndOf(tasks, bars, i, ref).value)
  {
    if i > 0 { EndOfWhole(tasks, bars, i - 1, ref); }
  }

  lemma WholeBase(tasks: seq<Task>, bars: seq<Bar>, i: nat, base: real)
    requires i < |tasks| && i <= |bars| && IsBase(tasks, bars, i, base) && forall j :: 0 <= j < i ==> WholeBar(bars[j])
    ensures IsWhole(base)
  {
    if tasks[i].start.After? {
      var ref :| ref in tasks[i].start.refs && EndOf(tasks, bars, i, ref) == Some(base);
      EndOfWhole(tasks, bars, i, ref);
    }
  }

  lemma WholeSpans(c: Calendar, base: real, t: Task, bar: Bar)
    requires IsWhole(base) && ScheduledFrom(c, base, t, bar) && IsWhole(t.duration) && t.duration >= 0.0
    ensures WholeBar(bar) && !DayOff(c, bar.start.Floor) && Spans(c, bar.start.Floor, bar.end.Floor, t.duration.Floor)
  {
    WholeShift(c, base, bar.start);
    WholeStartFills(c, bar.start.Floor, t.duration);
    WholeFills(c, bar.start.Floor, bar.end, t.duration.Floor);
  }

  /** With whole-day durations every task starts on a working day and spans exactly its duration in working days. */
  lemma {:induction false} WholeDaySchedule(c: Calendar, tasks: seq<Task>, bars: seq<Bar>, i: nat)
    requires |bars| == |tasks| && i < |tasks| && ValidTasks(tasks)
    requires forall k :: 0 <= k < |tasks| ==> Scheduled(c, tasks, bars, k)
    requires forall t :: t in tasks ==> IsWhole(t.duration)
    ensures WholeBar(bars[i]) && !DayOff(c, bars[i].start.Floor) && tasks[i].duration >= 0.0
    ensures Spans(c, bars[i].start.Floor, bars[i].end.Floor, tasks[i].duration.Floor)
  {
    hide IsBase, FirstWorking, Spans, EndOf, WorkedEnd;
    forall j | 0 <= j < i ensures WholeBar(bars[j]) { WholeDaySchedule(c, tasks, bars, j); }
    assert Scheduled(c, tasks, bars, i) && tasks[i] in tasks;
    var base :| IsBase(tasks, bars, i, base) && ScheduledFrom(c, base, tasks[i], bars[i]);
    WholeBase(tasks, bars, i, base);
    WholeSpans(c, base, tasks[i], bars[i]);
  }

  // ---- Durations in hours ----

  /** A task that starts with a day, as every dated one does, has its duration honoured even in hours. */
  lemma WholeStartHonoured(c: Calendar, tasks: seq<Task>, bars: seq<Bar>, i: nat)
    requires i < |tasks| && i < |bars| && Scheduled(c, tasks, bars, i)
    ensures tasks[i].start.OnDate? ==> IsWhole(bars[i].start)
    ensures IsWhole(bars[i].start) ==>
              !DayOff(c, bars[i].start.Floor) && Fills(c, bars[i].start.Floor, bars[i].end, Spent(tasks[i].duration))
  {
    hide WorkedEnd, Spent, Fills;
    var base :| IsBase(tasks, bars, i, base) && ScheduledFrom(c, base, tasks[i], bars[i]);
    WholeShift(c, base, bars[i].start);
    if IsWhole(bars[i].start) { WholeStartFills(c, bars[i].start.Floor, tasks[i].duration); }
  }

  /** In any schedule, a task is worked on working days only exactly when it starts with a day or would meet no day off
  if nothing were skipped. */
  lemma ScheduleWorksExactly(c: Calendar, tasks: seq<Task>, bars: seq<Bar>, i: nat)
    requires i < |tasks| && i < |bars| && Scheduled(c, tasks, bars, i)
    ensures OnWorkingDays(c, bars[i].start, tasks[i].duration) <==>
            IsWhole(bars[i].start) || ClearOfDaysOff(c, bars[i].start, bars[i].start + Spent(tasks[i].duration))
  {
    hide WorkedEnd, Spent, OnWorkingDays, ClearOfDaysOff;
    var base :| IsBase(tasks, bars, i, base) && ScheduledFrom(c, base, tasks[i], bars[i]);
    WholeShift(c, base, bars[i].start);
    SpentOnWorkingDaysExactly(c, bars[i].start, tasks[i].duration);
  }

  lemma StartsAtOnce(c: Calendar, base: real, start: real)
    requires FirstWorking(c, base, start) && !IsExcluded(c, base)
    ensures start == base
  {
    var k: nat :| FirstAt(c, base, k, start);
    assert !OffAfter(c, base, 0);
  }

  lemma FirstHalf(c: Calendar, tasks: seq<Task>, bars: seq<Bar>, day: int)
    requires |tasks| == 2 && tasks[0] == Task("a", OnDate(day), 0.5) && |bars| == 2
    requires Scheduled(c, tasks, bars, 0) && !DayOff(c, day)
    ensures bars[0] == Bar(day as real, day as real + 0.5)
  {
    var base :| IsBase(tasks, bars, 0, base) && ScheduledFrom(c, base, tasks[0], bars[0]);
    StartsAtOnce(c, base, bars[0].start);
    assert WorkedEnd(c, day as real + 0.5, 0.0) == day as real + 0.5;
  }

  lemma EndOfFirst(tasks: seq<Task>, bars: seq<Bar>)
    requires |tasks| == 2 && tasks[0].id == "a" && |bars| == 2
    ensures EndOf(tasks, bars, 1, "a") == Some(bars[0].end)
  {
  }

  lemma OneMoreDay(c: Calendar, start: real)
    requires !IsExcluded(c, start)
    ensures WorkedEnd(c, start, 1.0) == start + 1.0
  {
    hide IsExcluded;
    assert WorkedEnd(c, start + 1.0, 0.0) == start + 1.0;
  }

  lemma NoonWorks(c: Calendar, day: int)
    requires !DayOff(c, day)
    ensures !IsExcluded(c, day as real + 0.5)
  {
    hide IsWeekend;
    assert (day as real + 0.5).Floor == day;
  }

  lemma FromNoon(c: Calendar, tasks: seq<Task>, bars: seq<Bar>, day: int)
    requires |tasks| == 2 && tasks[0].id == "a" && tasks[1] == Task("b", After(["a"]), 1.0) && |bars| == 2
    requires Scheduled(c, tasks, bars, 1) && !DayOff(c, day) && bars[0].end == day as real + 0.5
    ensures bars[1] == Bar(day as real + 0.5, day as real + 1.5)
  {
    hide WorkedEnd, FirstWorking, EndOf, IsExcluded, DayOff;
    NoonWorks(c, day);
    var noon :| IsBase(tasks, bars, 1, noon) && ScheduledFrom(c, noon, tasks[1], bars[1]);
    EndOfFirst(tasks, bars);
    assert "a" in tasks[1].start.refs;
    StartsAtOnce(c, noon, bars[1].start);
    OneMoreDay(c, noon);
  }

  /** Half a day on a dated working day and then a whole day: the second task begins at noon. */
  lemma HalfThenWhole(c: Calendar, tasks: seq<Task>, bars: seq<Bar>, day: int)
    requires tasks == [Task("a", OnDate(day), 0.5), Task("b", After(["a"]), 1.0)] && |bars| == 2
    requires Scheduled(c, tasks, bars, 0) && Scheduled(c, tasks, bars, 1) && !DayOff(c, day)
    ensures bars == [Bar(day as real, day as real + 0.5), Bar(day as real + 0.5, day as real + 1.5)]
    ensures Worked(c, bars[1].start, 1.0) == [bars[1]]
  {
    FirstHalf(c, tasks, bars, day);
    FromNoon(c, tasks, bars, day);
    assert Worked(c, day as real + 1.5, 0.0) == [];
  }

  /** A duration given in hours breaks this. After half a day of work the next task works through a holiday: whatever
  the schedule, it ends at noon of the holiday. */
  lemma HalfDayHidesHoliday(c: Calendar, tasks: seq<Task>, bars: seq<Bar>)
    requires c == Calendar({1}, false) && |bars| == 2
    requires tasks == [Task("a", OnDate(0), 0.5), Task("b", After(["a"]), 1.0)]
    requires Scheduled(c, tasks, bars, 0) && Scheduled(c, tasks, bars, 1)
    ensures bars[1] == Bar(0.5, 1.5) && DayOff(c, 1) && !OnWorkingDays(c, bars[1].start, tasks[1].duration)
  {
    HalfThenWhole(c, tasks, bars, 0);
    assert Touches(bars[1].start, bars[1].end, 1) && bars[1] in Worked(c, bars[1].start, 1.0);
  }

  /** And with weekends off, the same two tasks begun on a Friday work on Saturday morning, although there each instant
  of a day off is seen to be one. */
  lemma HalfDayRunsIntoWeekend(c: Calendar, tasks: seq<Task>, bars: seq<Bar>)
    requires c == Calendar({}, true) && |bars| == 2
    requires tasks == [Task("a", OnDate(1), 0.5), Task("b", After(["a"]), 1.0)]
    requires Scheduled(c, tasks, bars, 0) && Scheduled(c, tasks, bars, 1)
    ensures bars[1] == Bar(1.5, 2.5) && DayOff(c, 2) && !OnWorkingDays(c, bars[1].start, tasks[1].duration)
    ensures forall day: real :: IsExcluded(c, day) <==> DayOff(c, day.Floor)
  {
    HalfThenWhole(c, tasks, bars, 1);
    assert Touches(bars[1].start, bars[1].end, 2) && bars[1] in Worked(c, bars[1].start, 1.0);
  }
}
