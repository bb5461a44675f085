/**
 * MobiCoreDevice::close need not end: the secure world may refuse to close a legacy session each
 * time it is asked, and then the search finds the same session again.  A GP session is found once.
 */
module EngineEndless {
  import opened Common
  import opened SessionSpec
  import opened Engine
  import opened EngineStream
  import opened EngineDeletion
  import opened EngineExit
  import opened EngineTheorems
  import P = EngineProgress

  // ---------------------------------------------------------------- runs inside one device close

  /** The holder of mutex_mcp is somewhere in the device close for the connection. */
  predicate Busy(pc: Pc, c: Conn) {
    pc == DevScan(c)
    || ((pc.CloseMark? || pc.CloseIssue? || pc.CloseWait? || pc.CloseCheck? || pc.FreeBuffers?
         || pc.Unlink? || pc.Delete?) && pc.who == OnDeviceClose(c))
  }

  ghost predicate StaysBusy(s: State, steps: seq<Step>, c: Conn)
    requires Runs(s, steps)
    decreases |steps|
  {
    Busy(s.pc, c) && (steps == [] || StaysBusy(Apply(s, steps[0]), steps[1..], c))
  }

  /** The search of the close loop finds this session in this step. */
  predicate PicksNow(s: State, step: Step, p: Ptr) {
    step == OfClose(ScanDevice) && s.pc.DevScan? && LastOwned(s.list, s.heap, s.pc.c) == Some(p)
  }

  ghost function Picks(s: State, steps: seq<Step>, p: Ptr): nat
    requires Runs(s, steps)
    decreases |steps|
  {
    if steps == [] then 0 else One(PicksNow(s, steps[0], p)) + Picks(Apply(s, steps[0]), steps[1..], p)
  }

  /** A run within the device close leads from s to t and finds the session n times. */
  ghost predicate Leads(s: State, t: State, c: Conn, p: Ptr, n: nat) {
    exists steps :: Runs(s, steps) && StaysBusy(s, steps, c) && RunFrom(s, steps) == t && Picks(s, steps, p) == n
  }

  lemma LeadsNowhere(s: State, c: Conn, p: Ptr)
    requires Busy(s.pc, c)
    ensures Leads(s, s, c, p, 0)
  {
    assert Runs(s, []) && StaysBusy(s, [], c) && RunFrom(s, []) == s && Picks(s, [], p) == 0;
  }

  lemma LeadsStep(s: State, step: Step, t: State, c: Conn, p: Ptr, n: nat)
    requires Busy(s.pc, c) && Enabled(s, step) && Leads(Apply(s, step), t, c, p, n)
    ensures Leads(s, t, c, p, n + One(PicksNow(s, step, p)))
  {
    var u := Apply(s, step);
    var rest :| Runs(u, rest) && StaysBusy(u, rest, c) && RunFrom(u, rest) == t && Picks(u, rest, p) == n;
    var steps := [step] + rest;
    assert steps[0] == step && steps[1..] == rest;
    assert Runs(s, steps);
    assert StaysBusy(s, steps, c) && RunFrom(s, steps) == t;
    assert Picks(s, steps, p) == n + One(PicksNow(s, step, p));
  }

  lemma {:induction false} LeadsFurther(s: State, steps: seq<Step>, t: State, u: State, c: Conn, p: Ptr, n: nat)
    requires Runs(s, steps) && StaysBusy(s, steps, c) && RunFrom(s, steps) == t && Leads(t, u, c, p, n)
    ensures Leads(s, u, c, p, Picks(s, steps, p) + n)
    decreases |steps|
  {
    if steps != [] {
      LeadsFurther(Apply(s, steps[0]), steps[1..], t, u, c, p, n);
      LeadsStep(s, steps[0], u, c, p, Picks(Apply(s, steps[0]), steps[1..], p) + n);
    }
  }

  lemma LeadsTrans(s: State, t: State, u: State, c: Conn, p: Ptr, m: nat, n: nat)
    requires Leads(s, t, c, p, m) && Leads(t, u, c, p, n)
    ensures Leads(s, u, c, p, m + n)
  {
    var steps :| Runs(s, steps) && StaysBusy(s, steps, c) && RunFrom(s, steps) == t && Picks(s, steps, p) == m;
    LeadsFurther(s, steps, t, u, c, p, n);
  }

  lemma LeadsReachable(s: State, t: State, c: Conn, p: Ptr, n: nat)
    requires Reachable(s) && Leads(s, t, c, p, n)
    ensures Reachable(t)
  {
    var steps :| Runs(s, steps) && StaysBusy(s, steps, c) && RunFrom(s, steps) == t && Picks(s, steps, p) == n;
    RunsReachable(s, steps);
  }

  // ---------------------------------------------------------------- first the IRQ thread runs dry

  /** Same list, same owners, same registered connections; the close loop is where it was. */
  ghost predicate SameScan(s: State, t: State) {
    && t.pc == s.pc && t.list == s.list && t.devices == s.devices && t.clients == s.clients
    && t.heap.Keys == s.heap.Keys
    && (forall p :: p in s.heap ==>
          t.heap[p].owner == s.heap[p].owner && t.heap[p].gp == s.heap[p].gp
          && t.heap[p].sessionId == s.heap[p].sessionId)
  }

  lemma {:induction false} LastOwnedSame(list: seq<Ptr>, a: map<Ptr, Session>, b: map<Ptr, Session>, c: Conn)
    requires a.Keys == b.Keys && forall p :: p in a ==> a[p].owner == b[p].owner
    ensures LastOwned(list, a, c) == LastOwned(list, b, c)
  {
    if list != [] { LastOwnedSame(list[..|list| - 1], a, b, c); }
  }

  function Backlog(s: State): nat {
    4 * |s.ring|
    + match s.irq
      case IrqIdle => 0
      case IrqGot(_) => 3
      case IrqFound(_, _) => 2
      case IrqQueued(_) => 1
  }

  lemma IrqShortens(s: State, x: IrqStep)
    requires CanIrq(s, x)
    ensures SameScan(s, DoIrq(s, x)) && Backlog(DoIrq(s, x)) < Backlog(s)
  {
    if x.IrqDeliver? { DeliverShortens(s); }
  }

  lemma DeliverShortens(s: State)
    requires s.irq.IrqFound? && s.irq.p in s.heap
    ensures SameScan(s, DoIrqDeliver(s)) && Backlog(DoIrqDeliver(s)) < Backlog(s)
  {}

  predicate Dry(s: State) { s.irq.IrqIdle? && s.ring == [] }

  lemma IrqGoesOn(s: State)
    requires Reachable(s) && !Dry(s)
    ensures exists x :: CanIrq(s, x)
  {
    InvReachable(s);
    P.IrqMoves(s);
  }

  /** The search is put off until the IRQ thread has handled everything; nothing it looks at changes. */
  ghost predicate DriesTo(s: State, t: State, c: Conn, p: Ptr) {
    Leads(s, t, c, p, 0) && SameScan(s, t) && Dry(t)
  }

  lemma DriesStep(s: State, x: IrqStep, t: State, c: Conn, p: Ptr)
    requires s.pc == DevScan(c) && CanIrq(s, x) && DriesTo(DoIrq(s, x), t, c, p) && SameScan(s, DoIrq(s, x))
    ensures DriesTo(s, t, c, p)
  {
    assert Apply(s, OfIrq(x)) == DoIrq(s, x);
    LeadsStep(s, OfIrq(x), t, c, p, 0);
  }

  lemma {:induction false} RunsDry(s: State, c: Conn, p: Ptr) returns (t: State)
    requires Reachable(s) && s.pc == DevScan(c)
    ensures DriesTo(s, t, c, p)
    decreases Backlog(s)
  {
    if Dry(s) {
      LeadsNowhere(s, c, p);
      t := s;
    } else {
      IrqGoesOn(s);
      var x :| CanIrq(s, x);
      IrqShortens(s, x);
      ReachableStep(s, OfIrq(x));
      t := RunsDry(DoIrq(s, x), c, p);
      DriesStep(s, x, t, c, p);
    }
  }

  // ---------------------------------------------------------------- then one refused close

  /** The close loop is about to search, and will find this session. */
  predicate ScanFor(s: State, c: Conn, p: Ptr) {
    s.pc == DevScan(c) && LastOwned(s.list, s.heap, c) == Some(p)
  }

  function Asked(s: State, c: Conn, p: Ptr): State
    requires p in s.heap
  {
    s.(pc := CloseWait(OnDeviceClose(c), p, false), mcp := Request(CloseCmd(s.heap[p].sessionId), None))
  }

  lemma ScanAsks(s: State, c: Conn, p: Ptr)
    requires ScanFor(s, c, p) && Dry(s) && p in s.heap && !s.heap[p].gp
    ensures Leads(s, Asked(s, c, p), c, p, 1)
  {
    var s1 := s.(pc := CloseMark(OnDeviceClose(c), p));
    var s2 := s.(pc := CloseIssue(OnDeviceClose(c), p, false));
    var s3 := Asked(s, c, p);
    assert Apply(s, OfClose(ScanDevice)) == s1;
    assert s1.heap[p := Disconnected(s1.heap[p])] == s.heap;
    assert Apply(s1, OfClose(Disconnect)) == s2;
    assert Apply(s2, OfClose(SendClose)) == s3;
    LeadsNowhere(s3, c, p);
    LeadsStep(s2, OfClose(SendClose), s3, c, p, 0);
    LeadsStep(s1, OfClose(Disconnect), s3, c, p, 0);
    LeadsStep(s, OfClose(ScanDevice), s3, c, p, 0);
  }

  lemma AskedIsRefused(s: State, c: Conn, p: Ptr)
    requires s.pc == DevScan(c) && Dry(s) && p in s.heap && s.mcpSem == 0
    requires s.heap[p].sessionId in s.sw && !s.sw[s.heap[p].sessionId].exited
    ensures Leads(Asked(s, c, p), s.(mcp := Response(Refused)), c, p, 0)
  {
    var n := Notification(SID_MCP, 0);
    var s0 := Asked(s, c, p);
    var s1 := s0.(mcp := Response(Refused), ring := [n]);
    var s2 := s1.(ring := [], irq := IrqGot(n));
    var s3 := s1.(ring := [], mcpSem := 1);
    var s4 := s.(mcp := Response(Refused));
    assert Apply(s0, OfSw(SwAnswer(Refused))) == s1;
    assert Apply(s1, OfIrq(IrqTake)) == s2;
    assert Apply(s2, OfIrq(IrqDispatch)) == s3;
    assert Apply(s3, OfClose(CloseDone)) == s4;
    LeadsNowhere(s4, c, p);
    LeadsStep(s3, OfClose(CloseDone), s4, c, p, 0);
    LeadsStep(s2, OfIrq(IrqDispatch), s4, c, p, 0);
    LeadsStep(s1, OfIrq(IrqTake), s4, c, p, 0);
    LeadsStep(s0, OfSw(SwAnswer(Refused)), s4, c, p, 0);
  }

  /** The loop goes round n times for one session and is where it was, with all it looks at unchanged. */
  ghost predicate Laps(s: State, t: State, c: Conn, p: Ptr, n: nat) {
    Leads(s, t, c, p, n) && SameScan(s, t)
  }

  lemma LapsTrans(s: State, t: State, u: State, c: Conn, p: Ptr, m: nat, n: nat)
    requires Laps(s, t, c, p, m) && Laps(t, u, c, p, n)
    ensures Laps(s, u, c, p, m + n)
  {
    LeadsTrans(s, t, u, c, p, m, n);
    SameScanTrans(s, t, u);
  }

  lemma SameScanTrans(s: State, t: State, u: State)
    requires SameScan(s, t) && SameScan(t, u)
    ensures SameScan(s, u)
  {}

  lemma SameScanFor(s: State, t: State, c: Conn, p: Ptr)
    requires SameScan(s, t) && ScanFor(s, c, p)
    ensures ScanFor(t, c, p)
  {
    LastOwnedSame(s.list, s.heap, t.heap, c);
  }

  /** A legacy session the search finds is open in the secure world, which may refuse to close it. */
  lemma FoundIsOpen(s: State, c: Conn, p: Ptr)
    requires Reachable(s) && ScanFor(s, c, p) && !s.heap[p].gp
    ensures s.mcpSem == 0 && s.heap[p].sessionId in s.sw && !s.sw[s.heap[p].sessionId].exited
  {
    InvReachable(s);
    FoundIsOpenThen(s, p);
  }

  lemma FoundIsOpenThen(s: State, p: Ptr)
    requires Flow(s) && Kinds(s) && s.pc.DevScan? && p in s.heap && !s.heap[p].gp
    ensures s.mcpSem == 0 && s.heap[p].sessionId in s.sw && !s.sw[s.heap[p].sessionId].exited
  {}

  /** The search, and a refused close. */
  lemma OneRefusal(s: State, c: Conn, p: Ptr)
    requires Reachable(s) && ScanFor(s, c, p) && !s.heap[p].gp && Dry(s)
    ensures Laps(s, s.(mcp := Response(Refused)), c, p, 1)
  {
    FoundIsOpen(s, c, p);
    ScanAsks(s, c, p);
    AskedIsRefused(s, c, p);
    LeadsTrans(s, Asked(s, c, p), s.(mcp := Response(Refused)), c, p, 1, 0);
  }

  lemma OneLap(s: State, c: Conn, p: Ptr) returns (t: State)
    requires Reachable(s) && ScanFor(s, c, p) && !s.heap[p].gp
    ensures Laps(s, t, c, p, 1)
  {
    var d := RunsDry(s, c, p);
    assert Laps(s, d, c, p, 0);
    LeadsReachable(s, d, c, p, 0);
    SameScanFor(s, d, c, p);
    OneRefusal(d, c, p);
    t := d.(mcp := Response(Refused));
    LapsTrans(s, d, t, c, p, 0, 1);
  }

  /** Any number of laps. */
  lemma {:induction false} ManyLaps(s: State, c: Conn, p: Ptr, n: nat) returns (t: State)
    requires Reachable(s) && ScanFor(s, c, p) && !s.heap[p].gp
    ensures Laps(s, t, c, p, n)
    decreases n
  {
    if n == 0 {
      LeadsNowhere(s, c, p);
      t := s;
    } else {
      var u := OneLap(s, c, p);
      LeadsReachable(s, u, c, p, 1);
      SameScanFor(s, u, c, p);
      t := ManyLaps(u, c, p, n - 1);
      LapsTrans(s, u, t, c, p, 1, n - 1);
    }
  }

  // ---------------------------------------------------------------- a GP session is found once

  /** The session has been found and is about to lose its client, or does not belong to c. */
  predicate Spent(s: State, c: Conn, p: Ptr) {
    (s.pc == CloseMark(OnDeviceClose(c), p) && p in s.heap && s.heap[p].gp)
    || p !in s.heap || s.heap[p].owner != Some(c)
  }

  /** Which of a session's fields matter here: its kind stays, its client stays or is lost. */
  predicate OnlyOrphaned(x: Session, y: Session) {
    y.gp == x.gp && (y.owner == x.owner || y.owner.None?)
  }

  lemma CloseOnlyOrphans(s: State, x: CloseStep, p: Ptr)
    requires CanClose(s, x) && p in DoClose(s, x).heap
    ensures p in s.heap && OnlyOrphaned(s.heap[p], DoClose(s, x).heap[p])
  {}

  lemma ClientKeepsOwner(s: State, x: ClientStep, p: Ptr)
    requires CanClient(s, x) && p in DoClient(s, x).heap
    ensures p in s.heap && OnlyOrphaned(s.heap[p], DoClient(s, x).heap[p])
  {}

  /** During the close no session is created, changes its kind, or gets a client. */
  lemma BusyStep(s: State, step: Step, c: Conn, p: Ptr)
    requires Busy(s.pc, c) && Enabled(s, step) && p in Apply(s, step).heap
    ensures p in s.heap && OnlyOrphaned(s.heap[p], Apply(s, step).heap[p])
  {
    match step
    case OfClient(x) => ClientKeepsOwner(s, x, p);
    case OfCommand(x) =>
    case OfClose(x) => CloseOnlyOrphans(s, x, p);
    case OfFree(x) =>
    case OfTa(x) =>
    case OfIrq(x) => IrqKeepsOwner(s, x, p);
    case OfSw(x) =>
  }

  lemma IrqKeepsOwner(s: State, x: IrqStep, p: Ptr)
    requires CanIrq(s, x) && p in DoIrq(s, x).heap
    ensures p in s.heap && OnlyOrphaned(s.heap[p], DoIrq(s, x).heap[p])
  {}

  lemma SpentKept(s: State, step: Step, c: Conn, p: Ptr)
    requires Spent(s, c, p) && Busy(s.pc, c) && Enabled(s, step)
    ensures Spent(Apply(s, step), c, p) && !PicksNow(s, step, p)
  {
    if p in Apply(s, step).heap {
      BusyStep(s, step, c, p);
      if s.pc == CloseMark(OnDeviceClose(c), p) && s.heap[p].gp { MarkKept(s, step, c, p); }
    }
  }

  /** Only the disconnection leads on from where the session was found. */
  lemma MarkKept(s: State, step: Step, c: Conn, p: Ptr)
    requires s.pc == CloseMark(OnDeviceClose(c), p) && p in s.heap && s.heap[p].gp && Enabled(s, step)
    requires p in Apply(s, step).heap
    ensures Apply(s, step).pc == s.pc || Apply(s, step).heap[p].owner.None?
  {
    match step
    case OfClient(x) =>
    case OfCommand(x) =>
    case OfClose(x) =>
    case OfFree(x) =>
    case OfTa(x) =>
    case OfIrq(x) => assert DoIrq(s, x).pc == s.pc;
    case OfSw(x) =>
  }

  lemma {:induction false} SpentNotFound(s: State, steps: seq<Step>, c: Conn, p: Ptr)
    requires Spent(s, c, p) && Runs(s, steps) && StaysBusy(s, steps, c)
    ensures Picks(s, steps, p) == 0
    decreases |steps|
  {
    if steps != [] {
      SpentKept(s, steps[0], c, p);
      SpentNotFound(Apply(s, steps[0]), steps[1..], c, p);
    }
  }

  /** However the close of the device goes, it finds a GP session at most once. */
  lemma {:induction false} GpFoundOnce(s: State, steps: seq<Step>, c: Conn, p: Ptr)
    requires p in s.heap && s.heap[p].gp && Runs(s, steps) && StaysBusy(s, steps, c)
    ensures Picks(s, steps, p) <= 1
    decreases |steps|
  {
    if steps != [] {
      var t := Apply(s, steps[0]);
      if PicksNow(s, steps[0], p) {
        assert t.pc == CloseMark(OnDeviceClose(c), p);
        SpentNotFound(t, steps[1..], c, p);
      } else if p in t.heap {
        BusyStep(s, steps[0], c, p);
        GpFoundOnce(t, steps[1..], c, p);
      } else {
        SpentNotFound(t, steps[1..], c, p);
      }
    }
  }

  /** Without leaving the close of the device, it can find the session that many times. */
  ghost predicate CanRepeat(s: State, c: Conn, p: Ptr, n: nat) { exists t :: Leads(s, t, c, p, n) }

  ghost predicate Endless(s: State, c: Conn, p: Ptr) { forall n: nat :: CanRepeat(s, c, p, n) }

  lemma GpNotTwice(s: State, c: Conn, p: Ptr)
    requires p in s.heap && s.heap[p].gp
    ensures !CanRepeat(s, c, p, 2)
  {
    if CanRepeat(s, c, p, 2) {
      var t :| Leads(s, t, c, p, 2);
      var steps :| Runs(s, steps) && StaysBusy(s, steps, c) && RunFrom(s, steps) == t && Picks(s, steps, p) == 2;
      GpFoundOnce(s, steps, c, p);
    }
  }

  /**
   * Closing a device can go on for ever with one session, in whatever reachable state the search
   * finds it, exactly when it is a legacy session.
   */
  lemma RepeatsExactlyWhen(s: State, c: Conn, p: Ptr)
    requires Reachable(s) && ScanFor(s, c, p)
    ensures Endless(s, c, p) <==> !s.heap[p].gp
  {
    if s.heap[p].gp {
      GpNotTwice(s, c, p);
    } else {
      forall n: nat ensures CanRepeat(s, c, p, n) {
        var t := ManyLaps(s, c, p, n);
      }
    }
  }

  /** And each time round, list, owners and registered connections are what they were. */
  lemma RepeatsWithNothingDone(s: State, c: Conn, p: Ptr, n: nat)
    requires Reachable(s) && ScanFor(s, c, p) && !s.heap[p].gp
    ensures exists t :: Laps(s, t, c, p, n) && ScanFor(t, c, p)
  {
    var t := ManyLaps(s, c, p, n);
    SameScanFor(s, t, c, p);
  }
}
