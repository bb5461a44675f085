/**
 * Session objects over all interleavings: listed until unlinked, and never touched
 * after deletion by the IRQ thread or by the holder of mutex_mcp.
 */
module EngineLifetime {
  import opened Common
  import opened SessionSpec
  import opened Engine
  import opened EngineLookups

  ghost predicate Lifetime(s: State) {
    && NoDup(s.list)
    && (forall p :: p in s.list ==> p in s.heap)
    && (forall p :: p in s.heap ==> p in s.list || (s.pc.Delete? && s.pc.p == p))
    && (Target(s.pc).Some? && !s.pc.Delete? ==> Target(s.pc).value in s.list)
    && (s.pc.Delete? ==> s.pc.p in s.heap && s.pc.p !in s.list)
    && (s.pc.Unlink? || s.pc.Delete? ==> s.heap[s.pc.p].buffers == map[])
    && (s.irq.IrqFound? || s.irq.IrqQueued? ==> s.irq.p in s.list)
    && (s.ta.InMcp? <==> ByTaExit(s.pc))
  }

  /** No object comes or goes, and every pointer held is one of a listed object. */
  lemma LifetimeAlone(s: State, t: State)
    requires Lifetime(s) && t.heap.Keys == s.heap.Keys && t.list == s.list
    requires !s.pc.Delete? && !t.pc.Unlink? && !t.pc.Delete?
    requires Target(t.pc).Some? ==> Target(t.pc).value in s.list
    requires t.irq.IrqFound? || t.irq.IrqQueued? ==> t.irq.p in s.list
    requires t.ta.InMcp? <==> ByTaExit(t.pc)
    ensures Lifetime(t)
  {}

  lemma LifetimeClient(s: State, step: ClientStep)
    requires Lifetime(s) && CanClient(s, step)
    ensures Lifetime(DoClient(s, step))
  {}

  lemma LifetimeCommand(s: State, step: CommandStep)
    requires Lifetime(s) && CanCommand(s, step)
    ensures Lifetime(DoCommand(s, step))
  {
    match step
    case OpenDone(at) => LifetimeOpenDone(s, at);
    case UnmapDone => LifetimeUnmapDone(s);
    case MapIssue(c, sid, h, len) => LifetimeMapIssue(s, c, FindSession(s, c, sid).value, h, len);
    case _ =>
  }

  lemma LifetimeMapIssue(s: State, c: Conn, p: Ptr, h: Handle, len: nat)
    requires Lifetime(s) && s.pc.Free? && p in s.list && p in s.heap
    ensures Lifetime(DoMapIssue(s, c, p, h, len))
  {}

  lemma LifetimeOpenDone(s: State, at: Ptr)
    requires Lifetime(s) && s.pc.OpenWait? && AnswerReady(s) && at !in s.heap
    ensures Lifetime(DoOpenDone(s, at))
  {
    if s.mcp.answer.Opened? { LifetimeOpened(s, at); } else { LifetimeAlone(s, DoOpenDone(s, at)); }
  }

  lemma LifetimeOpened(s: State, at: Ptr)
    requires Lifetime(s) && s.pc.OpenWait? && AnswerReady(s) && s.mcp.answer.Opened? && at !in s.heap
    ensures Lifetime(DoOpenDone(s, at))
  {
    forall i | 0 <= i < |s.list| ensures s.list[i] != at { assert s.list[i] in s.list; }
  }

  lemma LifetimeUnmapDone(s: State)
    requires Lifetime(s) && s.pc.UnmapWait? && s.pc.p in s.heap && AnswerReady(s)
    ensures Lifetime(DoUnmapDone(s))
  {}

  lemma LifetimeClose(s: State, step: CloseStep)
    requires Lifetime(s) && CanClose(s, step)
    ensures Lifetime(DoClose(s, step))
  {
    match step
    case ScanDevice => LifetimeScan(s);
    case Disconnect => LifetimeAlone(s, DoClose(s, Disconnect));
    case CloseDone => LifetimeCloseDone(s);
    case _ => LifetimeTurn(s, step);
  }

  lemma LifetimeScan(s: State)
    requires Lifetime(s) && CanClose(s, ScanDevice)
    ensures Lifetime(DoClose(s, ScanDevice))
  {
    LifetimeAlone(s, DoClose(s, ScanDevice));
  }

  lemma LifetimeCloseDone(s: State)
    requires Lifetime(s) && CanClose(s, CloseDone)
    ensures Lifetime(DoClose(s, CloseDone))
  {
    LifetimeAlone(s, DoClose(s, CloseDone));
  }

  lemma LifetimeTurn(s: State, step: CloseStep)
    requires Lifetime(s) && CanClose(s, step)
    requires step.CloseDevice? || step.CloseBegin? || step.SendClose? || step.CheckState?
    ensures Lifetime(DoClose(s, step))
  {
    LifetimeAlone(s, DoClose(s, step));
  }

  lemma LifetimeFree(s: State, step: FreeStep)
    requires Lifetime(s) && CanFree(s, step)
    ensures Lifetime(DoFree(s, step))
  {
    if step.UnlinkSession? { RemoveNoDup(s.list, s.pc.p); }
  }

  lemma LifetimeTa(s: State, step: TaStep)
    requires Lifetime(s) && CanTa(s, step)
    ensures Lifetime(DoTa(s, step))
  {}

  lemma LifetimeIrq(s: State, step: IrqStep)
    requires Lifetime(s) && CanIrq(s, step)
    ensures Lifetime(DoIrq(s, step))
  {
    match step
    case IrqTake => LifetimeIrqOnly(s, DoIrq(s, IrqTake));
    case IrqDispatch => LifetimeIrqOnly(s, DoIrqDispatch(s));
    case IrqDeliver => LifetimeDeliver(s);
    case IrqWake => LifetimeIrqOnly(s, DoIrq(s, IrqWake));
  }

  /** Only the IRQ thread moves, and it points to listed objects. */
  lemma LifetimeIrqOnly(s: State, t: State)
    requires Lifetime(s) && t.heap == s.heap && t.list == s.list && t.pc == s.pc && t.ta == s.ta
    requires t.irq.IrqFound? || t.irq.IrqQueued? ==> t.irq.p in s.list
    ensures Lifetime(t)
  {}

  lemma LifetimeDeliver(s: State)
    requires Lifetime(s) && s.irq.IrqFound? && s.irq.p in s.heap
    ensures Lifetime(DoIrqDeliver(s))
  {
    var x, y := s.heap[s.irq.p], Delivered(s.heap[s.irq.p], s.irq.n);
    assert y.buffers == x.buffers;
  }

  lemma LifetimeSw(s: State, step: SwStep)
    requires Lifetime(s) && CanSw(s, step)
    ensures Lifetime(DoSw(s, step))
  {}

  lemma LifetimeKept(s: State, step: Step)
    requires Lifetime(s) && Enabled(s, step)
    ensures Lifetime(Apply(s, step))
  {
    match step
    case OfClient(x) => LifetimeClient(s, x);
    case OfCommand(x) => LifetimeCommand(s, x);
    case OfClose(x) => LifetimeClose(s, x);
    case OfFree(x) => LifetimeFree(s, x);
    case OfTa(x) => LifetimeTa(s, x);
    case OfIrq(x) => LifetimeIrq(s, x);
    case OfSw(x) => LifetimeSw(s, x);
  }
}
