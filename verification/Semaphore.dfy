/**
 * CSemaphore over all interleavings of its waiters.  wait() re-tests the count when it wakes up,
 * the timed wait does not; the first never takes a token that is not there, the second can.
 */
module Semaphore {
  import opened Common

  /**
   * Sleeping threads are inside pthread_cond_wait; woken ones were signalled and have not got the
   * mutex back yet.  `entered` and `signalled` are history.
   */
  datatype Sem = Sem(count: int, sleeping: nat, woken: nat, entered: nat, signalled: nat)

  datatype Step =
    | Signal
    | Enter           // a thread calls wait: through at once, or asleep
    | WakeRetest      // a woken thread of wait() looks at the count again
    | WakeTimed       // a woken thread of wait(int) does not
    | TimeOut
    | Spurious        // pthread_cond_wait returns without a signal, as POSIX lets it

  predicate Enabled(s: Sem, step: Step) {
    match step
    case Signal => true
    case Enter => true
    case WakeRetest => s.woken > 0
    case WakeTimed => s.woken > 0
    case TimeOut => s.sleeping > 0
    case Spurious => s.sleeping > 0
  }

  function Apply(s: Sem, step: Step): Sem
    requires Enabled(s, step)
  {
    match step
    case Signal =>
      var t := s.(count := s.count + 1, signalled := s.signalled + 1);
      if s.sleeping > 0 then t.(sleeping := s.sleeping - 1, woken := s.woken + 1) else t
    case Enter =>
      if s.count == 0 then s.(sleeping := s.sleeping + 1)
      else s.(count := s.count - 1, entered := s.entered + 1)
    case WakeRetest =>
      if s.count == 0 then s.(woken := s.woken - 1, sleeping := s.sleeping + 1)
      else s.(woken := s.woken - 1, count := s.count - 1, entered := s.entered + 1)
    case WakeTimed => s.(woken := s.woken - 1, count := s.count - 1, entered := s.entered + 1)
    case TimeOut => s.(sleeping := s.sleeping - 1)
    case Spurious => s.(sleeping := s.sleeping - 1, woken := s.woken + 1)
  }

  ghost predicate Runs(s: Sem, steps: seq<Step>)
    decreases |steps|
  {
    steps == [] || (Enabled(s, steps[0]) && Runs(Apply(s, steps[0]), steps[1..]))
  }

  ghost function RunFrom(s: Sem, steps: seq<Step>): Sem
    requires Runs(s, steps)
    decreases |steps|
  {
    if steps == [] then s else RunFrom(Apply(s, steps[0]), steps[1..])
  }

  const Fresh := Sem(0, 0, 0, 0, 0)

  ghost predicate Honest(s: Sem) { s.count >= 0 && s.entered + s.count == s.signalled }

  /** With wait() only: nobody gets through without a token, whoever and however many wait. */
  lemma {:induction false} RetestIsSafe(s: Sem, steps: seq<Step>)
    requires Honest(s) && Runs(s, steps) && WakeTimed !in steps
    ensures Honest(RunFrom(s, steps))
    decreases |steps|
  {
    if steps != [] { RetestIsSafe(Apply(s, steps[0]), steps[1..]); }
  }

  /** How often a step of the kind is taken. */
  function Times(steps: seq<Step>, step: Step): nat {
    if steps == [] then 0 else (if steps[0] == step then 1 else 0) + Times(steps[1..], step)
  }

  /** Who has called is inside, has come through, or has given up. */
  lemma {:induction false} NobodyGetsLost(s: Sem, steps: seq<Step>)
    requires Runs(s, steps)
    ensures var t := RunFrom(s, steps);
      t.sleeping + t.woken + t.entered + Times(steps, TimeOut)
      == s.sleeping + s.woken + s.entered + Times(steps, Enter)
    decreases |steps|
  {
    if steps != [] { NobodyGetsLost(Apply(s, steps[0]), steps[1..]); }
  }

  /** With the timed wait a second thread can take the token that woke the first. */
  lemma TimedTakesTwice()
    ensures var steps := [Enter, Signal, Enter, WakeTimed];
      Runs(Fresh, steps) && RunFrom(Fresh, steps).count == -1 && RunFrom(Fresh, steps).entered == 2
  {
    var s1 := Apply(Fresh, Enter);
    var s2 := Apply(s1, Signal);
    var s3 := Apply(s2, Enter);
    assert Apply(s3, WakeTimed) == Sem(-1, 0, 0, 2, 1);
    assert [Enter, Signal, Enter, WakeTimed][1..] == [Signal, Enter, WakeTimed];
    assert [Signal, Enter, WakeTimed][1..] == [Enter, WakeTimed];
    assert [Enter, WakeTimed][1..] == [WakeTimed];
    assert [WakeTimed][1..] == [];
    assert Runs(Apply(s3, WakeTimed), []);
    assert Runs(s3, [WakeTimed]) && Runs(s2, [Enter, WakeTimed]) && Runs(s1, [Signal, Enter, WakeTimed]);
    assert RunFrom(s3, [WakeTimed]) == Sem(-1, 0, 0, 2, 1);
    assert RunFrom(s2, [Enter, WakeTimed]) == Sem(-1, 0, 0, 2, 1);
    assert RunFrom(s1, [Signal, Enter, WakeTimed]) == Sem(-1, 0, 0, 2, 1);
  }

  /** Every woken thread has a token. */
  ghost predicate Backed(s: Sem) { Honest(s) && s.woken <= s.count }

  lemma BackedKeptExactlyWhen(s: Sem, step: Step)
    requires Backed(s) && Enabled(s, step) && step != WakeRetest
    ensures Backed(Apply(s, step)) <==> !(step == Enter && s.count > 0 && s.woken == s.count) && !TooEarly(s, step)
  {}

  /** Threads inside the semaphore alone, with no other one entering, take a token that is not there. */
  ghost predicate Overdraws(s: Sem, steps: seq<Step>, spurious: bool) {
    Enter !in steps && (spurious || Spurious !in steps) && Runs(s, steps) && RunFrom(s, steps).count < 0
  }

  /** With spurious wake-ups or without. */
  ghost predicate CanOverdraw(s: Sem, spurious: bool) { exists steps :: Overdraws(s, steps, spurious) }

  /** The threads that may come through. */
  function Coming(s: Sem, spurious: bool): nat { s.woken + if spurious then s.sleeping else 0 }

  /** With a token for each of them they do not, whatever else arrives or times out. */
  lemma {:induction false} EnoughTokens(s: Sem, steps: seq<Step>, spurious: bool)
    requires Coming(s, spurious) <= s.count && Enter !in steps && (spurious || Spurious !in steps) && Runs(s, steps)
    ensures Coming(RunFrom(s, steps), spurious) <= RunFrom(s, steps).count
    decreases |steps|
  {
    if steps != [] { EnoughTokens(Apply(s, steps[0]), steps[1..], spurious); }
  }

  /** The sleeping threads wake up for no reason, and then all come through one after the other. */
  function AllCome(sleeping: nat, woken: nat): seq<Step>
    decreases sleeping, woken
  {
    if sleeping > 0 then [Spurious] + AllCome(sleeping - 1, woken + 1)
    else if woken > 0 then [WakeTimed] + AllCome(0, woken - 1)
    else []
  }

  lemma {:induction false} AllComeRuns(s: Sem, sleeping: nat, woken: nat)
    requires sleeping <= s.sleeping && woken == s.woken
    ensures var steps := AllCome(sleeping, woken);
      Enter !in steps && (sleeping == 0 ==> Spurious !in steps)
      && Runs(s, steps) && RunFrom(s, steps).count == s.count - sleeping - woken
    decreases sleeping, woken
  {
    var steps := AllCome(sleeping, woken);
    if sleeping > 0 {
      AllComeRuns(Apply(s, Spurious), sleeping - 1, woken + 1);
      assert steps[0] == Spurious && steps[1..] == AllCome(sleeping - 1, woken + 1);
    } else if woken > 0 {
      AllComeRuns(Apply(s, WakeTimed), 0, woken - 1);
      assert steps[0] == WakeTimed && steps[1..] == AllCome(0, woken - 1);
    }
  }

  /** In any state: a token that is not there can be taken exactly if more threads may come than it has. */
  lemma OverdrawnExactlyWhen(s: Sem, spurious: bool)
    ensures CanOverdraw(s, spurious) <==> Coming(s, spurious) > s.count
  {
    var sleeping := if spurious then s.sleeping else 0;
    if Coming(s, spurious) > s.count {
      AllComeRuns(s, sleeping, s.woken);
      assert Overdraws(s, AllCome(sleeping, s.woken), spurious);
    }
    forall steps | Coming(s, spurious) <= s.count && Overdraws(s, steps, spurious) ensures false {
      EnoughTokens(s, steps, spurious);
    }
  }

  /**
   * A thread may call the timed wait, and nothing goes wrong afterwards without yet another call,
   * exactly if it finds a token that no thread inside may come for; or, spurious wake-ups aside, if
   * it has to sleep and none is woken.
   */
  lemma TimedEntryIsSafeExactlyWhen(s: Sem, spurious: bool)
    ensures !CanOverdraw(Apply(s, Enter), spurious) <==>
      if s.count == 0 then !spurious && s.woken == 0 else Coming(s, spurious) < s.count
  {
    OverdrawnExactlyWhen(Apply(s, Enter), spurious);
  }

  /** Even a single thread takes a token that is not there, if it is woken for no reason. */
  lemma SpuriousTakesNothing()
    ensures var steps := [Enter, Spurious, WakeTimed];
      Runs(Fresh, steps) && RunFrom(Fresh, steps) == Sem(-1, 0, 0, 1, 0)
  {
    var s1 := Apply(Fresh, Enter);
    var s2 := Apply(s1, Spurious);
    assert Apply(s2, WakeTimed) == Sem(-1, 0, 0, 1, 0);
    assert [Enter, Spurious, WakeTimed][1..] == [Spurious, WakeTimed];
    assert [Spurious, WakeTimed][1..] == [WakeTimed];
    assert [WakeTimed][1..] == [];
    assert Runs(Apply(s2, WakeTimed), []);
    assert Runs(s2, [WakeTimed]) && Runs(s1, [Spurious, WakeTimed]);
    assert RunFrom(s2, [WakeTimed]) == RunFrom(s1, [Spurious, WakeTimed]) == Sem(-1, 0, 0, 1, 0);
  }

  /** One thread at a time in the timed wait, as for the MCP answer. */
  predicate OneWaiter(s: Sem, step: Step) { step == Enter ==> s.sleeping + s.woken == 0 }

  ghost predicate OneWaiterRuns(s: Sem, steps: seq<Step>)
    requires Runs(s, steps)
    decreases |steps|
  {
    steps == [] || (OneWaiter(s, steps[0]) && OneWaiterRuns(Apply(s, steps[0]), steps[1..]))
  }

  /** A thread is woken for no reason while every token is owed. */
  predicate TooEarly(s: Sem, step: Step) { step == Spurious && s.woken == s.count }

  ghost predicate NeverTooEarly(s: Sem, steps: seq<Step>)
    requires Runs(s, steps)
    decreases |steps|
  {
    steps == [] || (!TooEarly(s, steps[0]) && NeverTooEarly(Apply(s, steps[0]), steps[1..]))
  }

  ghost predicate StaysBacked(s: Sem, steps: seq<Step>)
    requires Runs(s, steps)
    decreases |steps|
  {
    Backed(s) && (steps == [] || StaysBacked(Apply(s, steps[0]), steps[1..]))
  }

  /** With one waiter the timed wait is a semaphore too, exactly as long as no wake-up is too early. */
  lemma {:induction false} TimedIsSafeForOneExactlyWhen(s: Sem, steps: seq<Step>)
    requires Backed(s) && Runs(s, steps) && OneWaiterRuns(s, steps) && WakeRetest !in steps
    ensures StaysBacked(s, steps) <==> NeverTooEarly(s, steps)
    decreases |steps|
  {
    if steps != [] {
      BackedKeptExactlyWhen(s, steps[0]);
      if !TooEarly(s, steps[0]) { TimedIsSafeForOneExactlyWhen(Apply(s, steps[0]), steps[1..]); }
    }
  }

  /** The semaphore as its one user sees it: a call that cannot get through reports it. */
  class CountingSemaphore {
    var count: nat

    constructor (size: nat)
      ensures count == size
    {
      count := size;
    }

    method Signal()
      modifies this
      ensures count == old(count) + 1
    {
      count := count + 1;
    }

    method TryWait() returns (through: bool)
      modifies this
      ensures through <==> old(count) > 0
      ensures count == if through then old(count) - 1 else old(count)
    {
      through := count > 0;
      if through { count := count - 1; }
    }
  }
}
