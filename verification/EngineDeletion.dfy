/**
 * How often a session object is created, unlinked and deleted in a run.  Addresses are handed out
 * again after they were freed, so the counts are those of everything that lived at one address.
 */
module EngineDeletion {
  import opened Common
  import opened SessionSpec
  import opened Engine
  import opened EngineLifetime

  datatype Event = Creation | Unlinking | Deletion

  /** Whether the step creates, unlinks or deletes the object at the address. */
  predicate Happens(e: Event, s: State, step: Step, p: Ptr) {
    match e
    case Creation => step == OfCommand(OpenDone(p)) && s.mcp.Response? && s.mcp.answer.Opened?
    case Unlinking => step == OfFree(UnlinkSession) && Target(s.pc) == Some(p)
    case Deletion => step == OfFree(DeleteSession) && Target(s.pc) == Some(p)
  }

  function One(b: bool): nat { if b then 1 else 0 }

  ghost function Count(e: Event, s: State, steps: seq<Step>, p: Ptr): nat
    requires Runs(s, steps)
    decreases |steps|
  {
    if steps == [] then 0
    else One(Happens(e, s, steps[0], p)) + Count(e, Apply(s, steps[0]), steps[1..], p)
  }

  /** What is unlinked is listed; what is deleted exists, is unlinked, and nobody else points to it. */
  lemma OnlyTheLiveGoes(s: State, step: Step, p: Ptr)
    requires Lifetime(s) && Enabled(s, step)
    ensures Happens(Unlinking, s, step, p) ==> p in s.list && p in s.heap
    ensures Happens(Deletion, s, step, p) ==>
      p in s.heap && p !in s.list && s.heap[p].buffers == map[]
      && !((s.irq.IrqFound? || s.irq.IrqQueued?) && s.irq.p == p)
    ensures Happens(Creation, s, step, p) ==> p !in s.heap && p !in s.list
  {}

  /** An object is there, or listed, exactly as much as it was created and not yet removed. */
  ghost predicate Balanced(s: State, step: Step, t: State, p: Ptr) {
    && One(p in t.heap) + One(Happens(Deletion, s, step, p)) == One(p in s.heap) + One(Happens(Creation, s, step, p))
    && One(p in t.list) + One(Happens(Unlinking, s, step, p)) == One(p in s.list) + One(Happens(Creation, s, step, p))
  }

  lemma CommandBalanced(s: State, step: CommandStep, p: Ptr)
    requires Lifetime(s) && CanCommand(s, step)
    ensures Balanced(s, OfCommand(step), DoCommand(s, step), p)
  {
    if step.OpenDone? { OpenBalanced(s, step.at, p); }
  }

  lemma OpenBalanced(s: State, at: Ptr, p: Ptr)
    requires Lifetime(s) && s.pc.OpenWait? && AnswerReady(s) && at !in s.heap
    ensures Balanced(s, OfCommand(OpenDone(at)), DoOpenDone(s, at), p)
  {}

  lemma FreeBalanced(s: State, step: FreeStep, p: Ptr)
    requires Lifetime(s) && CanFree(s, step)
    ensures Balanced(s, OfFree(step), DoFree(s, step), p)
  {}

  lemma CloseKeepsObjects(s: State, x: CloseStep)
    requires CanClose(s, x)
    ensures DoClose(s, x).heap.Keys == s.heap.Keys && DoClose(s, x).list == s.list
  {}

  lemma IrqKeepsObjects(s: State, x: IrqStep)
    requires CanIrq(s, x)
    ensures DoIrq(s, x).heap.Keys == s.heap.Keys && DoIrq(s, x).list == s.list
  {}

  /** All other steps create, list, unlink and delete nothing. */
  lemma QuietBalanced(s: State, step: Step, p: Ptr)
    requires Enabled(s, step) && !step.OfCommand? && !step.OfFree?
    ensures Balanced(s, step, Apply(s, step), p)
  {
    match step
    case OfClient(x) => assert DoClient(s, x).heap.Keys == s.heap.Keys;
    case OfClose(x) => CloseKeepsObjects(s, x);
    case OfTa(_) =>
    case OfIrq(x) => IrqKeepsObjects(s, x);
    case OfSw(_) =>
  }

  lemma StepBalanced(s: State, step: Step, p: Ptr)
    requires Lifetime(s) && Enabled(s, step)
    ensures Balanced(s, step, Apply(s, step), p)
  {
    match step
    case OfCommand(x) => CommandBalanced(s, x, p);
    case OfFree(x) => FreeBalanced(s, x, p);
    case _ => QuietBalanced(s, step, p);
  }

  lemma {:induction false} RunBalanced(s: State, steps: seq<Step>, p: Ptr)
    requires Lifetime(s) && Runs(s, steps)
    ensures One(p in RunFrom(s, steps).heap) + Count(Deletion, s, steps, p)
         == One(p in s.heap) + Count(Creation, s, steps, p)
    ensures One(p in RunFrom(s, steps).list) + Count(Unlinking, s, steps, p)
         == One(p in s.list) + Count(Creation, s, steps, p)
    decreases |steps|
  {
    if steps != [] {
      LifetimeKept(s, steps[0]);
      StepBalanced(s, steps[0], p);
      RunBalanced(Apply(s, steps[0]), steps[1..], p);
    }
  }
}
