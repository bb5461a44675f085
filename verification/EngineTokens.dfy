/**
 * The TA-exit semaphore over whole runs: the TA-exit thread is woken exactly for the notifications
 * of sessions that have neither a client nor a notification connection.
 */
module EngineTokens {
  import opened Common
  import opened SessionSpec
  import opened Engine
  import opened EngineLifetime
  import opened EngineDeletion
  import opened EngineTheorems

  /** A notification is queued for a session that nobody is connected to. */
  predicate ReachesNobody(s: State, step: Step) {
    step == OfIrq(IrqDeliver) && s.irq.IrqFound? && s.irq.p in s.heap
    && s.heap[s.irq.p].nq.None? && s.heap[s.irq.p].owner.None?
  }

  ghost function ReachNobody(s: State, steps: seq<Step>): nat
    requires Runs(s, steps)
    decreases |steps|
  {
    if steps == [] then 0 else One(ReachesNobody(s, steps[0])) + ReachNobody(Apply(s, steps[0]), steps[1..])
  }

  /** How often the TA-exit thread wakes up. */
  ghost function WakeUps(s: State, steps: seq<Step>): nat
    requires Runs(s, steps)
    decreases |steps|
  {
    if steps == [] then 0 else One(steps[0] == OfTa(TaWake)) + WakeUps(Apply(s, steps[0]), steps[1..])
  }

  /** The IRQ thread has queued such a notification and not signalled yet. */
  predicate Signalling(s: State) {
    s.irq.IrqQueued? && s.irq.p in s.heap && s.heap[s.irq.p].owner.None?
  }

  /** One step: a notification is owed a token until it is signalled, and a token a wake-up. */
  ghost predicate Exact(s: State, step: Step, t: State) {
    t.tokens + One(Signalling(t)) + One(step == OfTa(TaWake))
    == s.tokens + One(Signalling(s)) + One(ReachesNobody(s, step))
  }

  lemma ExactIrq(s: State, x: IrqStep)
    requires CanIrq(s, x)
    ensures Exact(s, OfIrq(x), DoIrq(s, x))
  {
    if x.IrqDeliver? { ExactDeliver(s); }
  }

  lemma ExactDeliver(s: State)
    requires s.irq.IrqFound? && s.irq.p in s.heap
    ensures Exact(s, OfIrq(IrqDeliver), DoIrqDeliver(s))
  {}

  /** mutex_connection and mutex_tslist keep the session from losing its client meanwhile. */
  lemma ExactClose(s: State, x: CloseStep)
    requires CanClose(s, x)
    ensures Exact(s, OfClose(x), DoClose(s, x))
  {}

  lemma ExactClient(s: State, x: ClientStep)
    requires CanClient(s, x)
    ensures Exact(s, OfClient(x), DoClient(s, x))
  {}

  lemma ExactCommand(s: State, x: CommandStep)
    requires Lifetime(s) && CanCommand(s, x)
    ensures Exact(s, OfCommand(x), DoCommand(s, x))
  {
    match x
    case OpenDone(at) => ExactOpenDone(s, at);
    case MapIssue(c, sid, h, len) => ExactMap(s, c, FindSession(s, c, sid).value, h, len);
    case _ =>
  }

  lemma ExactOpenDone(s: State, at: Ptr)
    requires Lifetime(s) && s.pc.OpenWait? && AnswerReady(s) && at !in s.heap
    ensures Exact(s, OfCommand(OpenDone(at)), DoOpenDone(s, at))
  {}

  lemma ExactMap(s: State, c: Conn, p: Ptr, h: Handle, len: nat)
    requires p in s.heap
    ensures Signalling(DoMapIssue(s, c, p, h, len)) == Signalling(s)
    ensures DoMapIssue(s, c, p, h, len).tokens == s.tokens
  {}

  lemma ExactFree(s: State, x: FreeStep)
    requires Lifetime(s) && CanFree(s, x)
    ensures Exact(s, OfFree(x), DoFree(s, x))
  {}

  lemma ExactStep(s: State, step: Step)
    requires Lifetime(s) && Enabled(s, step)
    ensures Exact(s, step, Apply(s, step))
  {
    match step
    case OfClient(x) => ExactClient(s, x);
    case OfCommand(x) => ExactCommand(s, x);
    case OfClose(x) => ExactClose(s, x);
    case OfFree(x) => ExactFree(s, x);
    case OfTa(x) =>
    case OfIrq(x) => ExactIrq(s, x);
    case OfSw(x) =>
  }

  lemma {:induction false} ExactRun(s: State, steps: seq<Step>)
    requires Lifetime(s) && Runs(s, steps)
    ensures var t := RunFrom(s, steps);
      t.tokens + One(Signalling(t)) + WakeUps(s, steps) == s.tokens + One(Signalling(s)) + ReachNobody(s, steps)
    decreases |steps|
  {
    if steps != [] {
      ExactStep(s, steps[0]);
      LifetimeKept(s, steps[0]);
      ExactRun(Apply(s, steps[0]), steps[1..]);
    }
  }

  /**
   * After every run from the start: the tokens, and the wake-ups they have led to, are the
   * notifications that reached nobody, less one if the IRQ thread is about to signal.
   */
  lemma TokensAreExact(steps: seq<Step>)
    requires Runs(Init, steps)
    ensures var t := RunFrom(Init, steps);
      t.tokens + WakeUps(Init, steps) == ReachNobody(Init, steps) - One(Signalling(t))
  {
    InvInit();
    ExactRun(Init, steps);
  }

  lemma {:induction false} SleepsUntilWoken(s: State, steps: seq<Step>)
    requires Runs(s, steps) && s.ta.Asleep? && WakeUps(s, steps) == 0
    ensures RunFrom(s, steps).ta.Asleep?
    decreases |steps|
  {
    if steps != [] {
      SleepStep(s, steps[0]);
      SleepsUntilWoken(Apply(s, steps[0]), steps[1..]);
    }
  }

  lemma SleepStep(s: State, step: Step)
    requires Enabled(s, step) && s.ta.Asleep? && step != OfTa(TaWake)
    ensures Apply(s, step).ta.Asleep?
  {
    match step
    case OfClient(x) =>
    case OfCommand(x) => assert DoCommand(s, x).ta == s.ta;
    case OfClose(x) => assert DoClose(s, x).ta == s.ta;
    case OfFree(x) =>
    case OfTa(x) =>
    case OfIrq(x) => assert DoIrq(s, x).ta == s.ta;
    case OfSw(x) =>
  }

  /** While every queued notification finds a client, there is no token and the TA-exit thread sleeps. */
  lemma NeverWokenForClients(steps: seq<Step>)
    requires Runs(Init, steps) && ReachNobody(Init, steps) == 0
    ensures RunFrom(Init, steps).tokens == 0 && RunFrom(Init, steps).ta.Asleep?
  {
    TokensAreExact(steps);
    SleepsUntilWoken(Init, steps);
  }
}
