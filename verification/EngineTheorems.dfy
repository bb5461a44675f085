/**
 * The invariants of the session engine hold in every reachable state, and what follows from them.
 */
module EngineTheorems {
  import opened Common
  import opened SessionSpec
  import opened Engine
  import opened EngineLifetime
  import opened EngineWakeup
  import opened EngineOwners
  import opened EngineStream
  import opened EngineExit
  import opened EngineMemory
  import opened EngineDelivery
  import opened EngineDeletion
  import opened EngineProgress
  import opened EngineLocks

  /** A close repeated after the exit, and a close by the TA-exit thread, is answered with Ok. */
  predicate Obeyed(s: State) {
    s.pc.CloseWait? && (s.pc.again || s.pc.who.OnTaExit?) && s.mcp.Response? ==> s.mcp.answer == Ok
  }

  ghost predicate Closing(s: State) { Kinds(s) && Announced(s) && Retries(s) && NotStranded(s) && Obeyed(s) }

  ghost predicate Memory(s: State) { InProgress(s) && LocksCover(s) && Accounted(s) }

  ghost predicate Inv(s: State) {
    && Lifetime(s) && NoLostWakeup(s) && Owners(s) && Flow(s)
    && Closing(s) && Memory(s) && Delivery(s)
  }

  lemma ObeyedSw(s: State, step: SwStep)
    requires Flow(s) && Announced(s) && Retries(s) && Obeyed(s) && CanSw(s, step)
    ensures Obeyed(DoSw(s, step))
  {}

  lemma ObeyedClose(s: State, step: CloseStep)
    requires Obeyed(s) && CanClose(s, step)
    ensures Obeyed(DoClose(s, step))
  {}

  /** Any other step leaves the wait for a close answer alone. */
  lemma ObeyedAlone(s: State, t: State)
    requires Obeyed(s) && t.mcp == s.mcp && (t.pc == s.pc || !t.pc.CloseWait?)
    ensures Obeyed(t)
  {}

  lemma ObeyedCommand(s: State, step: CommandStep)
    requires CanCommand(s, step)
    ensures !DoCommand(s, step).pc.CloseWait?
  {}

  lemma ObeyedIrq(s: State, step: IrqStep)
    requires CanIrq(s, step)
    ensures DoIrq(s, step).mcp == s.mcp && DoIrq(s, step).pc == s.pc
  {}

  lemma ObeyedKept(s: State, step: Step)
    requires Flow(s) && Announced(s) && Retries(s) && Obeyed(s) && Enabled(s, step)
    ensures Obeyed(Apply(s, step))
  {
    match step
    case OfClient(x) => ObeyedAlone(s, DoClient(s, x));
    case OfCommand(x) => ObeyedCommand(s, x);
    case OfClose(x) => ObeyedClose(s, x);
    case OfFree(x) => ObeyedAlone(s, DoFree(s, x));
    case OfTa(x) => ObeyedAlone(s, DoTa(s, x));
    case OfIrq(x) => ObeyedIrq(s, x);
    case OfSw(x) => ObeyedSw(s, x);
  }

  lemma ClosingKept(s: State, step: Step)
    requires Lifetime(s) && Owners(s) && Flow(s) && Closing(s) && Enabled(s, step)
    ensures Closing(Apply(s, step))
  {
    KindsKept(s, step);
    AnnouncedKept(s, step);
    RetriesKept(s, step);
    NotStrandedKept(s, step);
    ObeyedKept(s, step);
  }

  lemma MemoryKept(s: State, step: Step)
    requires Lifetime(s) && Flow(s) && Memory(s) && Enabled(s, step)
    ensures Memory(Apply(s, step))
  {
    InProgressKept(s, step);
    CoverKept(s, step);
    AccountedKept(s, step);
  }

  /** Every step of every thread keeps every invariant. */
  lemma InvKept(s: State, step: Step)
    requires Inv(s) && Enabled(s, step)
    ensures Inv(Apply(s, step))
  {
    LifetimeKept(s, step);
    NoLostWakeupKept(s, step);
    OwnersKept(s, step);
    FlowKept(s, step);
    ClosingKept(s, step);
    MemoryKept(s, step);
    DeliveryKept(s, step);
  }

  lemma {:induction false} NoClaims(h: Handle, n: nat)
    ensures Claims(Init, h, n) == 0
  {
    if n > 0 { NoClaims(h, n - 1); }
  }

  lemma {:induction false} NoRecords(s: State, h: Handle, n: nat)
    requires s.heap == map[]
    ensures Records(s, h, n) == 0
  {
    if n > 0 { NoRecords(s, h, n - 1); }
  }

  lemma InvInit()
    ensures Inv(Init)
  {
    forall h: Handle ensures Covered(Init, h) {
      forall n: nat ensures Claims(Init, h, n) == 0 { NoClaims(h, n); }
    }
    forall h: Handle ensures Exact(Init, h) {
      forall n: nat ensures Records(Init, h, n) == 0 { NoRecords(Init, h, n); }
    }
  }

  lemma {:induction false} InvRuns(s: State, steps: seq<Step>)
    requires Inv(s) && Runs(s, steps)
    ensures Inv(RunFrom(s, steps))
    decreases |steps|
  {
    if steps != [] {
      InvKept(s, steps[0]);
      InvRuns(Apply(s, steps[0]), steps[1..]);
    }
  }

  lemma InvReachable(s: State)
    requires Reachable(s)
    ensures Inv(s)
  {
    var steps :| Runs(Init, steps) && RunFrom(Init, steps) == s;
    InvInit();
    InvRuns(Init, steps);
  }

  lemma {:induction false} RunSnoc(s: State, steps: seq<Step>, step: Step)
    requires Runs(s, steps) && Enabled(RunFrom(s, steps), step)
    ensures Runs(s, steps + [step]) && RunFrom(s, steps + [step]) == Apply(RunFrom(s, steps), step)
    decreases |steps|
  {
    if steps == [] {
      assert [] + [step] == [step] && [step][1..] == [];
    } else {
      assert (steps + [step])[1..] == steps[1..] + [step];
      RunSnoc(Apply(s, steps[0]), steps[1..], step);
    }
  }

  lemma ReachableStep(s: State, step: Step)
    requires Reachable(s) && Enabled(s, step)
    ensures Reachable(Apply(s, step))
  {
    var steps :| Runs(Init, steps) && RunFrom(Init, steps) == s;
    RunSnoc(Init, steps, step);
  }

  lemma {:induction false} RunsReachable(s: State, steps: seq<Step>)
    requires Reachable(s) && Runs(s, steps)
    ensures Reachable(RunFrom(s, steps))
    decreases |steps|
  {
    if steps != [] {
      ReachableStep(s, steps[0]);
      RunsReachable(Apply(s, steps[0]), steps[1..]);
    }
  }

  // ---------------------------------------------------------------- what it means

  /** No thread ever holds a pointer to a deleted session object. */
  lemma NoUseAfterFree(s: State)
    requires Reachable(s)
    ensures Target(s.pc).Some? ==> Target(s.pc).value in s.heap
    ensures s.irq.IrqFound? || s.irq.IrqQueued? ==> s.irq.p in s.heap && s.irq.p in s.list
    ensures forall p :: p in s.list ==> p in s.heap
  {
    InvReachable(s);
  }

  /**
   * On every run from a reachable state: the object at an address is deleted, and unlinked, exactly
   * as often as it was created or there at the start, less once if it is still there at the end.
   */
  lemma DeletionsMatchCreations(s: State, steps: seq<Step>, p: Ptr)
    requires Reachable(s) && Runs(s, steps)
    ensures Count(Deletion, s, steps, p) + One(p in RunFrom(s, steps).heap)
         == Count(Creation, s, steps, p) + One(p in s.heap)
    ensures Count(Unlinking, s, steps, p) + One(p in RunFrom(s, steps).list)
         == Count(Creation, s, steps, p) + One(p in s.list)
  {
    InvReachable(s);
    RunBalanced(s, steps, p);
  }

  /**
   * closeSession and handleTaExit together unlink and delete an object at most once: between two
   * deletions at one address an object was created there.
   */
  lemma DeletedOnce(s: State, steps: seq<Step>, p: Ptr)
    requires Reachable(s) && Runs(s, steps)
    ensures Count(Deletion, s, steps, p) >= 2 ==> Count(Creation, s, steps, p) >= 1
    ensures Count(Unlinking, s, steps, p) >= 2 ==> Count(Creation, s, steps, p) >= 1
    ensures s == Init ==> Count(Deletion, s, steps, p) <= Count(Creation, s, steps, p)
    ensures s == Init ==> Count(Unlinking, s, steps, p) <= Count(Creation, s, steps, p)
  {
    DeletionsMatchCreations(s, steps, p);
  }

  /** Each deletion is of an object that exists, is unlinked, and nobody else points to. */
  lemma DeletedIsLive(s: State, step: Step, p: Ptr)
    requires Reachable(s) && Enabled(s, step)
    ensures Happens(Unlinking, s, step, p) ==> p in s.list && p in s.heap
    ensures Happens(Deletion, s, step, p) ==>
      p in s.heap && p !in s.list && s.heap[p].buffers == map[]
      && !((s.irq.IrqFound? || s.irq.IrqQueued?) && s.irq.p == p)
    ensures Happens(Creation, s, step, p) ==> p !in s.heap && p !in s.list
  {
    InvReachable(s);
    OnlyTheLiveGoes(s, step, p);
  }

  /** The repeated close the code asserts to succeed does, and so does every close by TA exit. */
  lemma SecondCloseSucceeds(s: State)
    requires Reachable(s) && s.pc.CloseWait? && AnswerReady(s)
    requires s.pc.again || s.pc.who.OnTaExit?
    ensures s.mcp.answer == Ok
    ensures CanClose(s, CloseDone) && DoClose(s, CloseDone).pc == FreeBuffers(s.pc.who, s.pc.p)
  {
    InvReachable(s);
  }

  /**
   * A session that lost its client and whose TA has exited: a close is about to be sent, or its
   * exit notification is on its way, or it is marked dead and the TA-exit thread is coming.
   */
  lemma OrphanIsCollected(s: State, p: Ptr)
    requires Reachable(s) && p in s.list && p in s.heap && s.heap[p].owner.None? && Exited(s, s.heap[p].sessionId)
    ensures (s.heap[p].state == TaDead && CleanupComing(s, p))
            || InFlight(Stream(s), s.heap[p].sessionId) || Asking(s, p)
  {
    InvReachable(s);
  }

  /** No dead session without a client is ever left with nobody coming for it. */
  lemma WakeupNeverLost(s: State, p: Ptr)
    requires Reachable(s) && p in s.list && p in s.heap && s.heap[p].state == TaDead && s.heap[p].owner.None?
    ensures s.tokens > 0 || !s.ta.Asleep? || s.irq == IrqQueued(p)
  {
    InvReachable(s);
  }

  /** What the secure world has mapped is locked, and every mapping and record has its own lock. */
  lemma MappedIsLocked(s: State, h: Handle)
    requires Reachable(s)
    ensures forall sid :: Mapped(s, sid, h) > 0 ==> s.locks[h] >= Mapped(s, sid, h)
    ensures forall sid :: Recorded(s, sid, h) ==> s.locks[h] >= 1
    ensures forall n :: Claims(s, h, n) <= s.locks[h]
  {
    InvReachable(s);
    assert Covered(s, h);
    forall sid: Sid ensures Claim(s, sid, h) <= s.locks[h] {
      assert Claims(s, h, sid + 1) + Reserved(s, h) <= s.locks[h];
    }
    forall sid | Mapped(s, sid, h) > 0 ensures s.locks[h] >= Mapped(s, sid, h) {
      assert Claim(s, sid, h) <= s.locks[h];
    }
    forall sid | Recorded(s, sid, h) ensures s.locks[h] >= 1 {
      assert Claim(s, sid, h) <= s.locks[h];
    }
  }

  /**
   * Every lock is accounted for: one per session with a record of the buffer, one for an OPEN in
   * progress, and those an error return or a second map has left behind.  EngineLeaks counts these
   * over the run.
   */
  lemma LocksAreExact(s: State, h: Handle, n: nat)
    requires Reachable(s) && forall p :: p in s.heap ==> s.heap[p].sessionId < n
    ensures s.locks[h] == Records(s, h, n) + s.kept[h] + if s.pc.OpenWait? && s.pc.tci == Some(h) then 1 else 0
  {
    InvReachable(s);
    assert Exact(s, h) && Bounded(s, n);
  }

  /** No dangling owner, and no connection with two owners. */
  lemma OwnersAreAlive(s: State)
    requires Reachable(s)
    ensures forall p :: p in s.heap && s.heap[p].owner.Some? ==>
      s.heap[p].owner.value in s.clients && s.heap[p].owner.value in s.devices
    ensures forall p :: p in s.heap && s.heap[p].nq.Some? ==> s.heap[p].nq.value !in s.clients
    ensures forall p, q :: p in s.heap && q in s.heap && p < q && s.heap[p].nq.Some? ==>
      s.heap[p].nq != s.heap[q].nq
  {
    InvReachable(s);
  }

  /** A client is reaped only after the worker dropped it; no session belongs to it then. */
  lemma ReapedOwnsNothing(s: State, c: Conn)
    requires Reachable(s) && CanClient(s, Reap(c))
    ensures c in s.dead && c !in s.devices && Serving(s.pc) != Some(c)
    ensures forall p :: p in s.heap ==> s.heap[p].owner != Some(c) && s.heap[p].nq != Some(c)
  {
    InvReachable(s);
  }

  /** Early notifications are only ever those of the session being opened. */
  lemma UnknownQueueIsPure(s: State)
    requires Reachable(s)
    ensures forall n :: n in s.unknown ==> Opening(s, n.sessionId)
  {
    InvReachable(s);
  }

  /** Before NQ_CONNECT: nothing written, everything since OPEN queued up to the first exit. */
  lemma QueuedUntilAttached(s: State, p: Ptr)
    requires Reachable(s) && p in s.list && p in s.heap && s.heap[p].owner.Some? && s.heap[p].nq.None?
    ensures var x := s.heap[p];
      && x.openedAt <= |s.log| && x.written == []
      && var seen := Filter(s.log[x.openedAt..], x.sessionId);
         && x.queue == (if x.gp then Cut(seen) else seen)
         && (x.state == TaDead <==> x.gp && HasExit(seen))
  {
    InvReachable(s);
    assert Served(s.log, s.heap[p]);
  }

  /** A legacy session gets every one of its notifications since OPEN, in order. */
  lemma LegacyDelivery(s: State, p: Ptr)
    requires Reachable(s) && p in s.list && p in s.heap && s.heap[p].owner.Some? && !s.heap[p].gp
    ensures s.heap[p].openedAt <= |s.log|
    ensures s.heap[p].written + s.heap[p].queue == Filter(s.log[s.heap[p].openedAt..], s.heap[p].sessionId)
  {
    InvReachable(s);
    LegacyServed(s.log, s.heap[p]);
  }

  lemma LegacyServed(log: seq<Notification>, x: Session)
    requires Served(log, x) && !x.gp
    ensures x.written + x.queue == Filter(log[x.openedAt..], x.sessionId)
  {
    if x.attachedAt.Some? {
      var o, a := x.openedAt, x.attachedAt.value;
      assert log[o..] == log[o..a] + log[a..];
      FilterConcat(log[o..a], log[a..], x.sessionId);
    }
  }

  lemma {:induction false} FilterConcat(a: seq<Notification>, b: seq<Notification>, sid: Sid)
    ensures Filter(a + b, sid) == Filter(a, sid) + Filter(b, sid)
  {
    if b == [] {
      assert a + b == a;
    } else {
      assert (a + b)[..|a + b| - 1] == a + b[..|b| - 1];
      FilterConcat(a, b[..|b| - 1], sid);
    }
  }

  /** After NQ_CONNECT at `a`: what was queued until then, then everything, all of it written. */
  lemma GpDelivery(s: State, p: Ptr)
    requires Reachable(s) && p in s.list && p in s.heap && s.heap[p].owner.Some? && s.heap[p].gp && s.heap[p].nq.Some?
    ensures var x := s.heap[p];
      && x.attachedAt.Some? && x.openedAt <= x.attachedAt.value <= |s.log| && x.queue == []
      && x.written == Cut(Filter(s.log[x.openedAt..x.attachedAt.value], x.sessionId))
                      + Filter(s.log[x.attachedAt.value..], x.sessionId)
  {
    InvReachable(s);
    assert Served(s.log, s.heap[p]);
  }

  /** mutex_mcp is never stuck. */
  lemma NeverStuck(s: State)
    requires Reachable(s) && !s.pc.Free?
    ensures exists step :: Helps(step) && Enabled(s, step)
  {
    InvReachable(s);
    HolderMoves(s);
  }

  /** The IRQ steps among the given steps. */
  function IrqCount(steps: seq<Step>): nat {
    if steps == [] then 0 else (if steps[0].OfIrq? then 1 else 0) + IrqCount(steps[1..])
  }

  /** Some state on the way has the answer's token. */
  ghost predicate Answered(s: State, steps: seq<Step>)
    requires Runs(s, steps)
    decreases |steps|
  {
    s.mcpSem == 1 || (steps != [] && Answered(Apply(s, steps[0]), steps[1..]))
  }

  /** However the threads are scheduled, IrqSteps many IRQ steps bring the MCP answer. */
  lemma AnswerArrives(s: State, steps: seq<Step>)
    requires Reachable(s) && AnswerComing(s) && Runs(s, steps) && IrqCount(steps) >= IrqSteps(s)
    ensures Answered(s, steps)
  {
    InvReachable(s);
    AnswerArrivesFrom(s, steps);
  }

  lemma {:induction false} AnswerArrivesFrom(s: State, steps: seq<Step>)
    requires Inv(s) && AnswerComing(s) && Runs(s, steps) && IrqCount(steps) >= IrqSteps(s)
    ensures Answered(s, steps)
    decreases |steps|
  {
    var t := Apply(s, steps[0]);
    InvKept(s, steps[0]);
    match steps[0]
    case OfIrq(x) =>
      AnswerComesCloser(s, x);
      if AnswerComing(t) { AnswerArrivesFrom(t, steps[1..]); }
    case _ =>
      AnswerNotDelayed(s, steps[0]);
      AnswerArrivesFrom(t, steps[1..]);
  }
}
