/**
 * The TA-exit wake-up is never lost: a dead session whose client is gone always has somebody
 * coming for it.
 */
module EngineWakeup {
  import opened Common
  import opened SessionSpec
  import opened Engine
  import opened EngineLifetime

  /** A token is outstanding, the TA-exit thread is awake, or the IRQ thread is about to wake it. */
  predicate CleanupComing(s: State, p: Ptr) {
    s.tokens > 0 || !s.ta.Asleep? || s.irq == IrqQueued(p)
  }

  ghost predicate NoLostWakeup(s: State) {
    forall p :: p in s.list && p in s.heap && s.heap[p].state == TaDead && s.heap[p].owner.None? ==>
      CleanupComing(s, p)
  }

  lemma NoLostWakeupClient(s: State, step: ClientStep)
    requires Lifetime(s) && NoLostWakeup(s) && CanClient(s, step)
    ensures NoLostWakeup(DoClient(s, step))
  {}

  lemma NoLostWakeupCommand(s: State, step: CommandStep)
    requires NoLostWakeup(s) && CanCommand(s, step)
    ensures NoLostWakeup(DoCommand(s, step))
  {
    match step
    case OpenDone(at) => NoLostWakeupOpenDone(s, at);
    case MapIssue(c, sid, h, len) => NoLostWakeupMapIssue(s, c, FindSession(s, c, sid).value, h, len);
    case _ =>
  }

  lemma NoLostWakeupOpenDone(s: State, at: Ptr)
    requires NoLostWakeup(s) && s.pc.OpenWait? && AnswerReady(s) && at !in s.heap
    ensures NoLostWakeup(DoOpenDone(s, at))
  {}

  lemma NoLostWakeupMapIssue(s: State, c: Conn, p: Ptr, h: Handle, len: nat)
    requires NoLostWakeup(s) && p in s.heap
    ensures NoLostWakeup(DoMapIssue(s, c, p, h, len))
  {}

  lemma NoLostWakeupClose(s: State, step: CloseStep)
    requires Lifetime(s) && NoLostWakeup(s) && CanClose(s, step)
    ensures NoLostWakeup(DoClose(s, step))
  {}

  lemma NoLostWakeupFree(s: State, step: FreeStep)
    requires Lifetime(s) && NoLostWakeup(s) && CanFree(s, step)
    ensures NoLostWakeup(DoFree(s, step))
  {}

  lemma NoLostWakeupTa(s: State, step: TaStep)
    requires Lifetime(s) && NoLostWakeup(s) && CanTa(s, step)
    ensures NoLostWakeup(DoTa(s, step))
  {}

  lemma NoLostWakeupIrq(s: State, step: IrqStep)
    requires Lifetime(s) && NoLostWakeup(s) && CanIrq(s, step)
    ensures NoLostWakeup(DoIrq(s, step))
  {}

  lemma NoLostWakeupSw(s: State, step: SwStep)
    requires Lifetime(s) && NoLostWakeup(s) && CanSw(s, step)
    ensures NoLostWakeup(DoSw(s, step))
  {}

  lemma NoLostWakeupKept(s: State, step: Step)
    requires Lifetime(s) && NoLostWakeup(s) && Enabled(s, step)
    ensures NoLostWakeup(Apply(s, step))
  {
    match step
    case OfClient(x) => NoLostWakeupClient(s, x);
    case OfCommand(x) => NoLostWakeupCommand(s, x);
    case OfClose(x) => NoLostWakeupClose(s, x);
    case OfFree(x) => NoLostWakeupFree(s, x);
    case OfTa(x) => NoLostWakeupTa(s, x);
    case OfIrq(x) => NoLostWakeupIrq(s, x);
    case OfSw(x) => NoLostWakeupSw(s, x);
  }
}
