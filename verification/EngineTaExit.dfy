/**
 * handleTaExit: once the TA-exit thread has mutex_mcp it closes each dead session once, and when it
 * goes back to sleep none of them is left.
 */
module EngineTaExit {
  import opened Common
  import opened SessionSpec
  import opened Engine
  import opened EngineLifetime
  import opened EngineLookups
  import opened EngineDeletion
  import opened EngineTheorems

  /** Every step of the run is taken while the TA-exit thread holds mutex_mcp. */
  ghost predicate WithinTaExit(s: State, steps: seq<Step>)
    requires Runs(s, steps)
    decreases |steps|
  {
    steps == [] || (ByTaExit(s.pc) && WithinTaExit(Apply(s, steps[0]), steps[1..]))
  }

  /** The search finds this session in this step. */
  predicate FindsNow(s: State, step: Step, p: Ptr) {
    step == OfTa(TaSearch) && FirstDead(s.list, s.heap) == Some(p)
  }

  ghost function Finds(s: State, steps: seq<Step>, p: Ptr): nat
    requires Runs(s, steps)
    decreases |steps|
  {
    if steps == [] then 0 else One(FindsNow(s, steps[0], p)) + Finds(Apply(s, steps[0]), steps[1..], p)
  }

  /** How often the search finds a session at all. */
  ghost function Passes(s: State, steps: seq<Step>): nat
    requires Runs(s, steps)
    decreases |steps|
  {
    if steps == [] then 0
    else One(steps[0] == OfTa(TaSearch) && FirstDead(s.list, s.heap).Some?) + Passes(Apply(s, steps[0]), steps[1..])
  }

  // ---------------------------------------------------------------- each session once

  /** The TA-exit thread is between finding a session and taking it out of the list. */
  predicate Disposing(pc: Pc) {
    (pc.CloseIssue? || pc.CloseWait? || pc.FreeBuffers? || pc.Unlink?) && pc.who.OnTaExit?
  }

  predicate Doomed(s: State, p: Ptr) { (Disposing(s.pc) && s.pc.p == p) || p !in s.list }

  /** No disconnection and no second attempt, and the secure world does as it is told. */
  ghost predicate Straight(s: State) {
    ByTaExit(s.pc) && !s.pc.CloseMark? && !s.pc.CloseCheck? && Obeyed(s)
  }

  lemma StraightReachable(s: State)
    requires Reachable(s) && ByTaExit(s.pc)
    ensures Straight(s)
  {
    InvReachable(s);
  }

  /** What a step other than searching and unlinking does to the loop. */
  ghost predicate GoesOn(s: State, t: State) {
    && t.list == s.list && ByTaExit(t.pc)
    && (Disposing(s.pc) <==> Disposing(t.pc)) && (Disposing(s.pc) ==> t.pc.p == s.pc.p)
  }

  lemma CloseGoesOn(s: State, x: CloseStep)
    requires Straight(s) && CanClose(s, x)
    ensures GoesOn(s, DoClose(s, x)) && DoClose(s, x).heap == s.heap
  {}

  lemma FreeGoesOn(s: State, x: FreeStep)
    requires Straight(s) && CanFree(s, x) && !x.UnlinkSession?
    ensures GoesOn(s, DoFree(s, x))
  {}

  lemma IrqGoesOn(s: State, x: IrqStep)
    requires Straight(s) && CanIrq(s, x)
    ensures GoesOn(s, DoIrq(s, x))
  {}

  lemma OthersWait(s: State)
    requires Straight(s)
    ensures forall x :: !CanCommand(s, x)
    ensures !CanTa(s, TaLock)
  {}

  lemma LoopGoesOn(s: State, step: Step)
    requires Straight(s) && Enabled(s, step) && step != OfTa(TaSearch) && step != OfFree(UnlinkSession)
    ensures GoesOn(s, Apply(s, step))
  {
    OthersWait(s);
    match step
    case OfClient(x) =>
    case OfClose(x) => CloseGoesOn(s, x);
    case OfFree(x) => FreeGoesOn(s, x);
    case OfTa(x) =>
    case OfIrq(x) => IrqGoesOn(s, x);
    case OfSw(x) =>
  }

  lemma DoomedKept(s: State, step: Step, p: Ptr)
    requires Reachable(s) && ByTaExit(s.pc) && Enabled(s, step) && Doomed(s, p)
    ensures Doomed(Apply(s, step), p) && !FindsNow(s, step, p)
  {
    StraightReachable(s);
    if step != OfTa(TaSearch) && step != OfFree(UnlinkSession) { LoopGoesOn(s, step); }
  }

  lemma {:induction false} DoomedNotFound(s: State, steps: seq<Step>, p: Ptr)
    requires Reachable(s) && Runs(s, steps) && WithinTaExit(s, steps) && Doomed(s, p)
    ensures Finds(s, steps, p) == 0
    decreases |steps|
  {
    if steps != [] {
      DoomedKept(s, steps[0], p);
      ReachableStep(s, steps[0]);
      DoomedNotFound(Apply(s, steps[0]), steps[1..], p);
    }
  }

  /** Whatever all threads do meanwhile, one session is closed at most once. */
  lemma {:induction false} FoundOnce(s: State, steps: seq<Step>, p: Ptr)
    requires Reachable(s) && Runs(s, steps) && WithinTaExit(s, steps)
    ensures Finds(s, steps, p) <= 1
    decreases |steps|
  {
    if steps != [] {
      ReachableStep(s, steps[0]);
      if FindsNow(s, steps[0], p) {
        DoomedNotFound(Apply(s, steps[0]), steps[1..], p);
      } else {
        FoundOnce(Apply(s, steps[0]), steps[1..], p);
      }
    }
  }

  // ---------------------------------------------------------------- and then no more

  /** Sessions the loop can still find. */
  function Left(s: State): int { |s.list| - One(Disposing(s.pc)) }

  lemma LeftShrinks(s: State, step: Step)
    requires Reachable(s) && ByTaExit(s.pc) && Enabled(s, step)
    ensures Left(Apply(s, step)) + One(step == OfTa(TaSearch) && FirstDead(s.list, s.heap).Some?) == Left(s)
  {
    StraightReachable(s);
    if step == OfFree(UnlinkSession) { UnlinkShortens(s); }
    else if step != OfTa(TaSearch) { LoopGoesOn(s, step); }
  }

  lemma UnlinkShortens(s: State)
    requires Reachable(s) && CanFree(s, UnlinkSession)
    ensures |DoFree(s, UnlinkSession).list| == |s.list| - 1
  {
    InvReachable(s);
    RemovedLength(s.list, s.pc.p);
  }

  lemma RemovedLength(list: seq<Ptr>, p: Ptr)
    requires NoDup(list) && p in list
    ensures |Remove(list, p)| == |list| - 1
  {
    var i :| 0 <= i < |list| && list[i] == p;
    RemoveKeepsOrder(list, i);
  }

  lemma LeftIsNatural(s: State)
    requires Reachable(s) && ByTaExit(s.pc)
    ensures Left(s) >= 0
  {
    InvReachable(s);
  }

  /** The loop ends: it goes round at most once for each session that is listed. */
  lemma {:induction false} LoopEnds(s: State, steps: seq<Step>)
    requires Reachable(s) && ByTaExit(s.pc) && Runs(s, steps) && WithinTaExit(s, steps)
    ensures Passes(s, steps) <= |s.list|
    ensures Passes(s, steps) <= Left(s)
    decreases |steps|
  {
    LeftIsNatural(s);
    if steps != [] {
      var t := Apply(s, steps[0]);
      LeftShrinks(s, steps[0]);
      ReachableStep(s, steps[0]);
      if ByTaExit(t.pc) {
        LoopEnds(t, steps[1..]);
      } else {
        LastPass(s, steps[0]);
      }
    }
  }

  /** mutex_mcp is given up only when the search has found nothing. */
  lemma LastPass(s: State, step: Step)
    requires Reachable(s) && ByTaExit(s.pc) && Enabled(s, step) && !ByTaExit(Apply(s, step).pc)
    ensures step == OfTa(TaSearch) && FirstDead(s.list, s.heap).None?
  {
    StraightReachable(s);
    if step != OfTa(TaSearch) && step != OfFree(UnlinkSession) { LoopGoesOn(s, step); }
  }

  // ---------------------------------------------------------------- nothing dead is left

  predicate DeadOrGone(s: State, p: Ptr) { p in s.heap ==> s.heap[p].state == TaDead }

  lemma DeadStays(s: State, step: Step, p: Ptr)
    requires Straight(s) && Enabled(s, step) && DeadOrGone(s, p)
    ensures DeadOrGone(Apply(s, step), p)
  {
    OthersWait(s);
    match step
    case OfClient(x) =>
    case OfClose(x) => CloseGoesOn(s, x);
    case OfFree(x) =>
    case OfTa(x) =>
    case OfIrq(x) => DeadStaysIrq(s, x, p);
    case OfSw(x) =>
  }

  lemma DeadStaysIrq(s: State, x: IrqStep, p: Ptr)
    requires CanIrq(s, x) && DeadOrGone(s, p)
    ensures DeadOrGone(DoIrq(s, x), p)
  {}

  /**
   * From the moment the TA-exit thread has mutex_mcp until it gives it up: every session that is
   * dead at the start is deleted at the end.
   */
  lemma {:induction false} DeadAreCollected(s: State, steps: seq<Step>, p: Ptr)
    requires Reachable(s) && ByTaExit(s.pc) && Runs(s, steps) && WithinTaExit(s, steps)
    requires !ByTaExit(RunFrom(s, steps).pc) && DeadOrGone(s, p)
    ensures p !in RunFrom(s, steps).heap
    decreases |steps|
  {
    var t := Apply(s, steps[0]);
    StraightReachable(s);
    DeadStays(s, steps[0], p);
    ReachableStep(s, steps[0]);
    if ByTaExit(t.pc) {
      DeadAreCollected(t, steps[1..], p);
    } else {
      LastPass(s, steps[0]);
      InvReachable(s);
    }
  }
}
