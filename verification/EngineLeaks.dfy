/**
 * Locks that are never given back: exactly those of two branches, counted over whole runs.
 */
module EngineLeaks {
  import opened Common
  import opened SessionSpec
  import opened Engine
  import opened EngineDeletion
  import opened EngineLocks
  import opened EngineTheorems

  /** An error return after locking, or a map of a buffer the session has a record of already. */
  predicate LeavesLock(s: State, step: Step, h: Handle)
    requires Enabled(s, step)
  {
    step.OfCommand?
    && match step.command
       case KeepLock(_, g) => g == h
       case MapIssue(c, sid, g, _) => g == h && h in s.heap[FindSession(s, c, sid).value].buffers
       case _ => false
  }

  /** How often the run goes through one of the two. */
  ghost function LeftIn(s: State, steps: seq<Step>, h: Handle): nat
    requires Runs(s, steps)
    decreases |steps|
  {
    if steps == [] then 0 else One(LeavesLock(s, steps[0], h)) + LeftIn(Apply(s, steps[0]), steps[1..], h)
  }

  /** The run goes through neither. */
  ghost predicate LeavesNone(s: State, steps: seq<Step>, h: Handle)
    requires Runs(s, steps)
    decreases |steps|
  {
    steps == [] || (!LeavesLock(s, steps[0], h) && LeavesNone(Apply(s, steps[0]), steps[1..], h))
  }

  lemma KeptByCommand(s: State, step: CommandStep, h: Handle)
    requires CanCommand(s, step)
    ensures DoCommand(s, step).kept[h] == s.kept[h] + One(LeavesLock(s, OfCommand(step), h))
  {}

  lemma KeptByStep(s: State, step: Step, h: Handle)
    requires Enabled(s, step)
    ensures Apply(s, step).kept[h] == s.kept[h] + One(LeavesLock(s, step, h))
  {
    match step
    case OfCommand(x) => KeptByCommand(s, x, h);
    case OfIrq(x) => assert DoIrq(s, x).kept == s.kept;
    case OfClient(x) =>
    case OfClose(x) => assert DoClose(s, x).kept == s.kept;
    case OfFree(x) =>
    case OfTa(x) =>
    case OfSw(x) =>
  }

  lemma {:induction false} KeptByRun(s: State, steps: seq<Step>, h: Handle)
    requires Runs(s, steps)
    ensures RunFrom(s, steps).kept[h] == s.kept[h] + LeftIn(s, steps, h)
    ensures LeftIn(s, steps, h) == 0 <==> LeavesNone(s, steps, h)
    decreases |steps|
  {
    if steps != [] {
      KeptByStep(s, steps[0], h);
      KeptByRun(Apply(s, steps[0]), steps[1..], h);
    }
  }

  /** After any run: one lock per record, one for an OPEN in progress, one per time it was left behind. */
  lemma LocksAfterRun(steps: seq<Step>, h: Handle, n: nat)
    requires Runs(Init, steps) && Bounded(RunFrom(Init, steps), n)
    ensures var t := RunFrom(Init, steps);
      t.locks[h] == Records(t, h, n) + LeftIn(Init, steps, h)
                    + if t.pc.OpenWait? && t.pc.tci == Some(h) then 1 else 0
  {
    var t := RunFrom(Init, steps);
    KeptByRun(Init, steps, h);
    assert Reachable(t);
    LocksAreExact(t, h, n);
  }

  /**
   * When all sessions are gone and no command is in progress, a buffer has as many locks as the run
   * left behind: it is unlocked exactly if the run went through neither of the two branches with it.
   */
  lemma LocksAreGivenBackExactlyWhen(steps: seq<Step>, h: Handle)
    requires Runs(Init, steps) && RunFrom(Init, steps).heap == map[] && RunFrom(Init, steps).pc.Free?
    ensures RunFrom(Init, steps).locks[h] == LeftIn(Init, steps, h)
    ensures RunFrom(Init, steps).locks[h] == 0 <==> LeavesNone(Init, steps, h)
  {
    LocksAfterRun(steps, h, 0);
    KeptByRun(Init, steps, h);
  }
}
