/**
 * The scheduler thread (TrustZoneDevice::schedule): how often the secure world gets an N-SIQ, and
 * how its time-outs are kept.  One pass through the endless loop is one step; what the secure
 * world and the clock do meanwhile is the step's input.
 */
module Scheduler {
  const TWO_32 := 0x1_0000_0000
  const SCHEDULING_FREQ := 5
  const MS_PER_S := 1000
  const US_PER_MS := 1000
  const US_PER_S := 1_000_000
  const NO_TIMEOUT: Word := TWO_32 - 1

  type Word = n: int | 0 <= n < TWO_32

  datatype Time = Time(sec: nat, usec: nat)

  /** Microseconds since the epoch. */
  function Micros(t: Time): nat { t.sec * US_PER_S + t.usec }

  /** What a clock can show. */
  type Reading = t: Time | 0 < t.sec && t.usec < US_PER_S witness Time(1, 0)

  /** `now` is read when deciding, `after` and `timeout` when the secure world has run. */
  datatype Input = Input(idle: bool, clockOk: bool, now: Reading, after: Reading, timeout: Word)

  datatype Event = Slept | NotYet | Yielded | Siq(forced: bool)

  /** A wake-up second of 0 means none is set; `setAt` and `ms` record where it came from. */
  datatype State = State(timeslice: Word, wakeup: Time, setAt: Time, ms: Word)

  const Init := State(SCHEDULING_FREQ, Time(0, 0), Time(0, 0), 0)

  // ---------------------------------------------------------------- one pass

  /** The test for a reached time-out, seconds and microseconds each on their own. */
  predicate Detected(now: Time, wakeup: Time) { now.sec >= wakeup.sec && now.usec >= wakeup.usec }

  function WakeTime(now: Time, ms: nat): Time {
    var sec := now.sec + ms / MS_PER_S;
    var usec := now.usec + ms % MS_PER_S * US_PER_MS;
    if usec > US_PER_S then Time(sec + 1, usec - US_PER_S) else Time(sec, usec)
  }

  function Pass(s: State, i: Input): (State, Event) {
    if i.idle && s.wakeup.sec == 0 then (s, Slept)
    else if i.idle && !(i.clockOk && Detected(i.now, s.wakeup)) then (s, NotYet)
    else
      var slice := if i.idle then 0 else s.timeslice;
      var left := if slice > 0 then slice - 1 else SCHEDULING_FREQ;
      var event := if slice > 0 then Yielded else Siq(i.idle);
      if i.timeout != NO_TIMEOUT then (State(left, WakeTime(i.after, i.timeout), i.after, i.timeout), event)
      else (s.(timeslice := left, wakeup := s.wakeup.(sec := 0)), event)
  }

  function Run(s: State, inputs: seq<Input>): (State, seq<Event>) {
    if inputs == [] then (s, [])
    else
      var (t, events) := Run(s, inputs[..|inputs| - 1]);
      var (u, e) := Pass(t, inputs[|inputs| - 1]);
      (u, events + [e])
  }

  // ---------------------------------------------------------------- N-SIQs

  /** Yields since the last N-SIQ. */
  function YieldsSince(events: seq<Event>): nat {
    if events == [] then 0
    else
      var last := events[|events| - 1];
      if last.Siq? then 0 else YieldsSince(events[..|events| - 1]) + if last.Yielded? then 1 else 0
  }

  lemma {:induction false} SliceCountsYields(inputs: seq<Input>)
    ensures YieldsSince(Run(Init, inputs).1) + Run(Init, inputs).0.timeslice == SCHEDULING_FREQ
  {
    if inputs != [] {
      var front := inputs[..|inputs| - 1];
      SliceCountsYields(front);
      var events := Run(Init, inputs).1;
      assert events[..|events| - 1] == Run(Init, front).1;
    }
  }

  /** At most five yields between N-SIQs, and an N-SIQ that is not forced comes after exactly five. */
  lemma FiveYields(inputs: seq<Input>, i: Input)
    ensures YieldsSince(Run(Init, inputs).1) <= SCHEDULING_FREQ
    ensures Pass(Run(Init, inputs).0, i).1 == Siq(false) ==> YieldsSince(Run(Init, inputs).1) == SCHEDULING_FREQ
    ensures !i.idle && YieldsSince(Run(Init, inputs).1) == SCHEDULING_FREQ ==>
      Pass(Run(Init, inputs).0, i).1 == Siq(false)
  {
    SliceCountsYields(inputs);
  }

  // ---------------------------------------------------------------- time-outs

  /** The wake-up time is the time read plus the time-out, exactly; a full second may stay in usec. */
  lemma WakeTimeIsExact(now: Time, ms: nat)
    requires now.usec < US_PER_S
    ensures Micros(WakeTime(now, ms)) == Micros(now) + ms * US_PER_MS
    ensures WakeTime(now, ms).usec <= US_PER_S
    ensures WakeTime(now, ms).usec == US_PER_S <==> now.usec + ms % MS_PER_S * US_PER_MS == US_PER_S
  {
    assert ms == ms / MS_PER_S * MS_PER_S + ms % MS_PER_S;
  }

  lemma {:induction false} WakeupWasComputed(inputs: seq<Input>)
    ensures var s := Run(Init, inputs).0;
      s.wakeup.sec != 0 ==> Micros(s.wakeup) == Micros(s.setAt) + s.ms * US_PER_MS && s.wakeup.usec <= US_PER_S
  {
    if inputs != [] {
      var i := inputs[|inputs| - 1];
      WakeupWasComputed(inputs[..|inputs| - 1]);
      WakeTimeIsExact(i.after, i.timeout);
    }
  }

  /** The secure world has run in the pass. */
  predicate Ran(e: Event) { e.Yielded? || e.Siq? }

  /** The last pass in which it has. */
  ghost predicate LastRun(events: seq<Event>, k: int) {
    0 <= k < |events| && Ran(events[k]) && forall j :: k < j < |events| ==> !Ran(events[j])
  }

  /** A wake-up time is set exactly if the secure world asked for one when it ran last, and it is that. */
  lemma {:induction false} WakeupIsLastAskedFor(inputs: seq<Input>)
    ensures var (s, events) := Run(Init, inputs);
      && |events| == |inputs|
      && (s.wakeup.sec != 0 <==> exists k :: LastRun(events, k) && inputs[k].timeout != NO_TIMEOUT)
      && (forall k :: LastRun(events, k) && inputs[k].timeout != NO_TIMEOUT ==>
            Micros(s.wakeup) == Micros(inputs[k].after) + inputs[k].timeout * US_PER_MS)
  {
    if inputs != [] {
      var front, i := inputs[..|inputs| - 1], inputs[|inputs| - 1];
      WakeupIsLastAskedFor(front);
      var (t, before) := Run(Init, front);
      var (s, events) := Run(Init, inputs);
      assert events == before + [Pass(t, i).1];
      if Ran(Pass(t, i).1) {
        WakeTimeIsExact(i.after, i.timeout);
        assert LastRun(events, |front|);
      } else {
        forall k ensures LastRun(events, k) <==> LastRun(before, k) { LastRunSame(before, Pass(t, i).1, k); }
      }
    }
  }

  lemma LastRunSame(events: seq<Event>, e: Event, k: int)
    requires !Ran(e)
    ensures LastRun(events + [e], k) <==> LastRun(events, k)
  {
    if LastRun(events + [e], k) {
      forall j | k < j < |events| ensures !Ran(events[j]) { assert (events + [e])[j] == events[j]; }
    }
  }

  /** When it ran last the secure world asked to be woken. */
  ghost predicate Asked(inputs: seq<Input>) {
    exists k :: LastRun(Run(Init, inputs).1, k) && k < |inputs| && inputs[k].timeout != NO_TIMEOUT
  }

  /**
   * An idle secure world sleeps for good exactly if it has not asked to be woken; if it has, it is
   * woken exactly when the clock can be read and its reading has reached the time in both parts.  One
   * that is not idle runs.
   */
  lemma EventsMean(inputs: seq<Input>, i: Input)
    ensures var s := Run(Init, inputs).0; var e := Pass(s, i).1;
      var reached := i.clockOk && i.now.sec >= s.wakeup.sec && i.now.usec >= s.wakeup.usec;
      && (e == Slept <==> i.idle && !Asked(inputs))
      && (e == Siq(true) <==> i.idle && Asked(inputs) && reached)
      && (e == NotYet <==> i.idle && Asked(inputs) && !reached)
      && (e == Yielded || e == Siq(false) <==> !i.idle)
  {
    WakeupIsLastAskedFor(inputs);
    SliceCountsYields(inputs);
  }

  lemma DetectedIsReached(now: Time, wakeup: Time)
    ensures Detected(now, wakeup) ==> Micros(now) >= Micros(wakeup)
  {}

  /** A forced N-SIQ never comes before the time-out the secure world asked for is over. */
  lemma {:induction false} ForcedNotEarly(inputs: seq<Input>, i: Input)
    requires Pass(Run(Init, inputs).0, i).1 == Siq(true)
    ensures Micros(i.now) >= Micros(Run(Init, inputs).0.setAt) + Run(Init, inputs).0.ms * US_PER_MS
  {
    var s := Run(Init, inputs).0;
    WakeupWasComputed(inputs);
    DetectedIsReached(i.now, s.wakeup);
  }

  /** A time-out that is over is noticed exactly when the microseconds have caught up as well. */
  lemma DetectedExactlyWhen(now: Time, wakeup: Time)
    requires wakeup.usec <= US_PER_S && now.usec < US_PER_S
    ensures Detected(now, wakeup) <==> Micros(now) >= Micros(wakeup) && now.usec >= wakeup.usec
  {}

  /** So a reading more than half a second late can be taken for too early. */
  lemma LateButNotDetected()
    ensures Micros(Time(11, 400_000)) >= Micros(Time(10, 900_000)) && !Detected(Time(11, 400_000), Time(10, 900_000))
  {}

  ghost predicate AllIdle(inputs: seq<Input>) { forall k :: 0 <= k < |inputs| ==> inputs[k].idle }

  /** From a state with a wake-up time set, an idle secure world is left alone for ever... */
  ghost predicate NeverForced(s: State) {
    forall inputs :: AllIdle(inputs) ==> forall e :: e in Run(s, inputs).1 ==> e == NotYet
  }

  /** ...exactly when a full second was left in the microseconds. */
  lemma NeverForcedExactlyWhen(s: State)
    requires s.wakeup.sec != 0 && s.wakeup.usec <= US_PER_S
    ensures NeverForced(s) <==> s.wakeup.usec == US_PER_S
  {
    if s.wakeup.usec == US_PER_S {
      forall inputs | AllIdle(inputs)
        ensures forall e :: e in Run(s, inputs).1 ==> e == NotYet
      {
        StaysIdle(s, inputs);
      }
    } else {
      var now: Reading := s.wakeup;
      var inputs := [Input(true, true, now, now, NO_TIMEOUT)];
      assert inputs[..|inputs| - 1] == [];
      assert AllIdle(inputs) && Run(s, inputs).1 == [Siq(true)];
      assert Siq(true) in Run(s, inputs).1;
    }
  }

  lemma {:induction false} StaysIdle(s: State, inputs: seq<Input>)
    requires s.wakeup.sec != 0 && s.wakeup.usec == US_PER_S && AllIdle(inputs)
    ensures Run(s, inputs).0 == s && forall e :: e in Run(s, inputs).1 ==> e == NotYet
  {
    if inputs != [] { StaysIdle(s, inputs[..|inputs| - 1]); }
  }

  /** 500 ms asked for at half a second past: from then on an idle secure world is not woken. */
  lemma NeverForcedExample()
    ensures NeverForced(Run(Init, [Input(false, true, Time(1, 0), Time(10, 500_000), 500)]).0)
  {
    var inputs := [Input(false, true, Time(1, 0), Time(10, 500_000), 500)];
    assert inputs[..|inputs| - 1] == [];
    NeverForcedExactlyWhen(Run(Init, inputs).0);
  }

  // ---------------------------------------------------------------- in place

  class SchedulerThread {
    var timeslice: Word
    var wakeup: Time
    ghost var setAt: Time
    ghost var ms: Word

    ghost function Contents(): State
      reads this
    {
      State(timeslice, wakeup, setAt, ms)
    }

    constructor ()
      ensures Contents() == Init
    {
      timeslice, wakeup := SCHEDULING_FREQ, Time(0, 0);
      setAt, ms := Time(0, 0), 0;
    }

    /** One pass of the loop; the post-decrement of the time slice wraps below zero. */
    method Once(i: Input) returns (event: Event)
      modifies this
      ensures (Contents(), event) == Pass(old(Contents()), i)
    {
      if i.idle {
        if wakeup.sec == 0 { return Slept; }
        if !(i.clockOk && i.now.sec >= wakeup.sec && i.now.usec >= wakeup.usec) { return NotYet; }
        timeslice := 0;
      }
      var slice := timeslice;
      timeslice := (timeslice - 1) % TWO_32;
      if slice != 0 {
        event := Yielded;
      } else {
        timeslice := SCHEDULING_FREQ;
        event := Siq(i.idle);
      }
      if i.timeout != NO_TIMEOUT {
        wakeup := ComputeWakeup(i.after, i.timeout);
        setAt, ms := i.after, i.timeout;
      } else {
        wakeup := wakeup.(sec := 0);
      }
    }

    static method ComputeWakeup(now: Time, timeout: Word) returns (t: Time)
      ensures t == WakeTime(now, timeout)
    {
      var next: Word := timeout;
      t := now;
      while next >= MS_PER_S
        invariant t.usec == now.usec && t.sec + next / MS_PER_S == now.sec + timeout / MS_PER_S
        invariant next % MS_PER_S == timeout % MS_PER_S
      {
        t := t.(sec := t.sec + 1);
        next := next - MS_PER_S;
      }
      t := t.(usec := t.usec + next * US_PER_MS);
      if t.usec > US_PER_S {
        t := Time(t.sec + 1, t.usec - US_PER_S);
      }
    }
  }
}
