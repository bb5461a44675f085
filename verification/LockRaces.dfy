/**
 * Which shared data the daemon's locks protect: two threads are never about to access the same of
 * them exactly if one lock is held around every access; for the others a run leads to both.  This
 * is about locks alone: EngineTheorems.UnknownQueueIsPure says why early notifications come only
 * while the OPEN they are kept for is being carried out.
 */
module LockRaces {
  import opened LockOrder

  predicate AboutTo(sys: seq<Thread>, i: nat, d: Data) {
    i < |sys| && sys[i].rest != [] && sys[i].rest[0] == Access(d)
  }

  /** Two threads are about to access the data, and nothing keeps either of them from it. */
  predicate Race(sys: seq<Thread>, i: nat, j: nat, d: Data) {
    && i != j && AboutTo(sys, i, d) && AboutTo(sys, j, d)
    && CanMove(sys, Run(i)) && CanMove(sys, Run(j))
  }

  ghost predicate Exclusive(d: Data) {
    forall sys, i, j :: Reachable(sys) ==> !Race(sys, i, j, d)
  }

  lemma AccessHolds(sys: seq<Thread>, i: nat, d: Data)
    requires Disciplined(sys) && AboutTo(sys, i, d)
    ensures Guards(d) <= sys[i].held
  {
    assert Ordered(sys[i].held, sys[i].rest, {});
  }

  /** What is accessed under one lock everywhere is accessed by one thread at a time. */
  lemma GuardedNeverRace(sys: seq<Thread>, i: nat, j: nat, d: Data)
    requires Reachable(sys) && Guards(d) != {} && AboutTo(sys, i, d) && AboutTo(sys, j, d)
    ensures i == j
  {
    DisciplineReachable(sys);
    AccessHolds(sys, i, d);
    AccessHolds(sys, j, d);
  }

  // ---------------------------------------------------------------- leading a thread somewhere

  lemma {:induction false} OneMore(start: seq<Thread>, moves: seq<Move>, m: Move)
    requires Runs(start, moves) && CanMove(After(start, moves), m)
    ensures Runs(start, moves + [m]) && After(start, moves + [m]) == Moved(After(start, moves), m)
    decreases |moves|
  {
    if moves == [] {
      assert [] + [m] == [m] && [m][1..] == [];
    } else {
      assert (moves + [m])[1..] == moves[1..] + [m];
      OneMore(Moved(start, moves[0]), moves[1..], m);
    }
  }

  lemma ReachableMove(sys: seq<Thread>, m: Move)
    requires Reachable(sys) && CanMove(sys, m)
    ensures Reachable(Moved(sys, m))
  {
    var start, moves :| AllIdle(start) && Runs(start, moves) && After(start, moves) == sys;
    OneMore(start, moves, m);
  }

  function HeldAfter(held: set<Lock>, ops: seq<Op>): set<Lock>
    decreases |ops|
  {
    if ops == [] then held
    else
      match ops[0]
      case Acquire(l) => HeldAfter(held + {l}, ops[1..])
      case Release(l) => HeldAfter(held - {l}, ops[1..])
      case _ => HeldAfter(held, ops[1..])
  }

  /** Every lock the operations need is free when it is their turn. */
  predicate Clear(sys: seq<Thread>, i: nat, held: set<Lock>, ops: seq<Op>)
    decreases |ops|
  {
    if ops == [] then true
    else
      match ops[0]
      case Acquire(l) =>
        l !in held && (forall j :: 0 <= j < |sys| && j != i ==> l !in sys[j].held)
        && Clear(sys, i, held + {l}, ops[1..])
      case Release(l) => Clear(sys, i, held - {l}, ops[1..])
      case _ => Clear(sys, i, held, ops[1..])
  }

  lemma {:induction false} ClearSame(a: seq<Thread>, b: seq<Thread>, i: nat, held: set<Lock>, ops: seq<Op>)
    requires |a| == |b| && (forall j :: 0 <= j < |a| && j != i ==> a[j] == b[j]) && Clear(a, i, held, ops)
    ensures Clear(b, i, held, ops)
    decreases |ops|
  {
    if ops != [] {
      match ops[0]
      case Acquire(l) => ClearSame(a, b, i, held + {l}, ops[1..]);
      case Release(l) => ClearSame(a, b, i, held - {l}, ops[1..]);
      case _ => ClearSame(a, b, i, held, ops[1..]);
    }
  }

  /** While all others stand still, a thread carries out the first part of what it has to do. */
  lemma {:induction false} Drive(sys: seq<Thread>, i: nat, ops: seq<Op>, rest: seq<Op>)
    requires Reachable(sys) && i < |sys| && sys[i].rest == ops + rest && Clear(sys, i, sys[i].held, ops)
    ensures Reachable(sys[i := Thread(rest, HeldAfter(sys[i].held, ops))])
    decreases |ops|
  {
    if ops == [] {
      assert ops + rest == rest && sys[i := Thread(rest, sys[i].held)] == sys;
    } else {
      ReachableMove(sys, Run(i));
      var next := Moved(sys, Run(i));
      assert (ops + rest)[1..] == ops[1..] + rest;
      ClearSame(sys, next, i, next[i].held, ops[1..]);
      Drive(next, i, ops[1..], rest);
      assert next[i := Thread(rest, HeldAfter(next[i].held, ops[1..]))]
          == sys[i := Thread(rest, HeldAfter(sys[i].held, ops))];
    }
  }

  /** A thread with nothing to do begins an activity and gets as far as the given place in it. */
  lemma Go(sys: seq<Thread>, i: nat, a: Activity, ops: seq<Op>, rest: seq<Op>)
    requires Reachable(sys) && i < |sys| && sys[i] == Thread([], {}) && (i == IRQ <==> ByIrq(a))
    requires Script(a) == ops + rest && Clear(sys, i, {}, ops)
    ensures Reachable(sys[i := Thread(rest, HeldAfter({}, ops))])
  {
    ReachableMove(sys, Begin(i, a));
    var begun := Moved(sys, Begin(i, a));
    ClearSame(sys, begun, i, {}, ops);
    Drive(begun, i, ops, rest);
    assert begun[i := Thread(rest, HeldAfter({}, ops))] == sys[i := Thread(rest, HeldAfter({}, ops))];
  }

  lemma {:induction false} ClearConcat(sys: seq<Thread>, i: nat, held: set<Lock>, a: seq<Op>, b: seq<Op>)
    requires Clear(sys, i, held, a) && Clear(sys, i, HeldAfter(held, a), b)
    ensures Clear(sys, i, held, a + b) && HeldAfter(held, a + b) == HeldAfter(HeldAfter(held, a), b)
    decreases |a|
  {
    if a == [] {
      assert a + b == b;
    } else {
      assert (a + b)[1..] == a[1..] + b;
      match a[0]
      case Acquire(l) => ClearConcat(sys, i, held + {l}, a[1..], b);
      case Release(l) => ClearConcat(sys, i, held - {l}, a[1..], b);
      case _ => ClearConcat(sys, i, held, a[1..], b);
    }
  }

  lemma {:induction false} AccessesClear(sys: seq<Thread>, i: nat, held: set<Lock>, ops: seq<Op>)
    requires forall k :: 0 <= k < |ops| ==> ops[k].Access?
    ensures Clear(sys, i, held, ops) && HeldAfter(held, ops) == held
    decreases |ops|
  {
    if ops != [] { AccessesClear(sys, i, held, ops[1..]); }
  }

  predicate Takes(sys: seq<Thread>, i: nat, held: set<Lock>, l: Lock) {
    l !in held && forall j :: 0 <= j < |sys| && j != i ==> l !in sys[j].held
  }

  lemma ClearAcquire(sys: seq<Thread>, i: nat, held: set<Lock>, l: Lock)
    requires Takes(sys, i, held, l)
    ensures Clear(sys, i, held, [Acquire(l)]) && HeldAfter(held, [Acquire(l)]) == held + {l}
  {
    assert [Acquire(l)][1..] == [];
  }

  /** A whole critical section leaves the locks as they were. */
  lemma ClearSection(sys: seq<Thread>, i: nat, held: set<Lock>, l: Lock, ops: seq<Op>)
    requires Takes(sys, i, held, l) && forall k :: 0 <= k < |ops| ==> ops[k].Access?
    ensures Clear(sys, i, held, Locked(l, ops)) && HeldAfter(held, Locked(l, ops)) == held
  {
    ClearAcquire(sys, i, held, l);
    AccessesClear(sys, i, held + {l}, ops);
    ClearConcat(sys, i, held, [Acquire(l)], ops);
    assert [Release(l)][1..] == [] && held + {l} - {l} == held;
    ClearConcat(sys, i, held, [Acquire(l)] + ops, [Release(l)]);
  }

  /** A lock is taken and some data are accessed under it. */
  lemma ClearInside(sys: seq<Thread>, i: nat, held: set<Lock>, l: Lock, ops: seq<Op>)
    requires Takes(sys, i, held, l) && forall k :: 0 <= k < |ops| ==> ops[k].Access?
    ensures Clear(sys, i, held, [Acquire(l)] + ops) && HeldAfter(held, [Acquire(l)] + ops) == held + {l}
  {
    ClearAcquire(sys, i, held, l);
    AccessesClear(sys, i, held + {l}, ops);
    ClearConcat(sys, i, held, [Acquire(l)], ops);
  }

  // ---------------------------------------------------------------- the four races

  const IDLE := Thread([], {})

  /** Two threads get somewhere in their activities, one after the other. */
  lemma Both(none: seq<Thread>, i: nat, a: Activity, opsA: seq<Op>, restA: seq<Op>,
             j: nat, b: Activity, opsB: seq<Op>, restB: seq<Op>)
    requires AllIdle(none) && i < |none| && j < |none| && i != j
    requires (i == IRQ <==> ByIrq(a)) && (j == IRQ <==> ByIrq(b))
    requires Script(a) == opsA + restA && Script(b) == opsB + restB
    requires Clear(none, i, {}, opsA)
    requires Clear(none[i := Thread(restA, HeldAfter({}, opsA))], j, {}, opsB)
    ensures Reachable(none[i := Thread(restA, HeldAfter({}, opsA))][j := Thread(restB, HeldAfter({}, opsB))])
  {
    assert Runs(none, []) && After(none, []) == none;
    Go(none, i, a, opsA, restA);
    Go(none[i := Thread(restA, HeldAfter({}, opsA))], j, b, opsB, restB);
  }

  /** They come to the same data. */
  lemma Meet(none: seq<Thread>, i: nat, a: Activity, opsA: seq<Op>, restA: seq<Op>,
             j: nat, b: Activity, opsB: seq<Op>, restB: seq<Op>, d: Data)
    requires AllIdle(none) && i < |none| && j < |none| && i != j
    requires (i == IRQ <==> ByIrq(a)) && (j == IRQ <==> ByIrq(b))
    requires Script(a) == opsA + ([Access(d)] + restA) && Script(b) == opsB + ([Access(d)] + restB)
    requires Clear(none, i, {}, opsA)
    requires Clear(none[i := Thread([Access(d)] + restA, HeldAfter({}, opsA))], j, {}, opsB)
    ensures !Exclusive(d)
  {
    var one := none[i := Thread([Access(d)] + restA, HeldAfter({}, opsA))];
    var both := one[j := Thread([Access(d)] + restB, HeldAfter({}, opsB))];
    Both(none, i, a, opsA, [Access(d)] + restA, j, b, opsB, [Access(d)] + restB);
    assert Race(both, i, j, d);
  }

  /** In an OPEN, before the queue of early notifications is cleared. */
  const OPENING: seq<Op> := [Acquire(McpMutex)]
  /** After a GP session was opened and listed, before it is handed the early notifications. */
  const OPENED: seq<Op> := [Acquire(McpMutex)] + OPEN + RELINK + [Access(Records), Access(EarlyQueue)]
  /** In closeSession for a GP session, before its client is taken away. */
  const CLOSING: seq<Op> := [Acquire(McpMutex)] + SEARCH + [Acquire(ConnectionMutex)]
  const CLOSE_GP := CloseShape(true, true, false, false, false)
  /** In the IRQ thread, before an early notification is queued, and before a session is given one. */
  const QUEUEING: seq<Op> := PUT + ([Acquire(TsListMutex)] + [Access(SessionList)])
  const DELIVERING: seq<Op> := QUEUEING + ([Acquire(ConnectionMutex)] + [Access(Connections)])
  /** In a NOTIFY, before the session's client is looked at. */
  const LOOKING: seq<Op> := [Acquire(SiqMutex)] + ([Acquire(TsListMutex)] + [Access(SessionList)])

  lemma QueueingClear(sys: seq<Thread>)
    requires Takes(sys, IRQ, {}, NqMutex) && Takes(sys, IRQ, {}, TsListMutex)
    ensures Clear(sys, IRQ, {}, QUEUEING) && HeldAfter({}, QUEUEING) == {} + {TsListMutex}
  {
    ClearSection(sys, IRQ, {}, NqMutex, [Access(Rings)]);
    ClearInside(sys, IRQ, {}, TsListMutex, [Access(SessionList)]);
    ClearConcat(sys, IRQ, {}, PUT, [Acquire(TsListMutex)] + [Access(SessionList)]);
  }

  lemma DeliveringClear(sys: seq<Thread>)
    requires Takes(sys, IRQ, {}, NqMutex) && Takes(sys, IRQ, {}, TsListMutex)
    requires Takes(sys, IRQ, {} + {TsListMutex}, ConnectionMutex)
    ensures Clear(sys, IRQ, {}, DELIVERING)
  {
    QueueingClear(sys);
    ClearInside(sys, IRQ, {} + {TsListMutex}, ConnectionMutex, [Access(Connections)]);
    ClearConcat(sys, IRQ, {}, QUEUEING, [Acquire(ConnectionMutex)] + [Access(Connections)]);
  }

  lemma LookingClear(sys: seq<Thread>, i: nat)
    requires Takes(sys, i, {}, SiqMutex) && Takes(sys, i, {} + {SiqMutex}, TsListMutex)
    ensures Clear(sys, i, {}, LOOKING)
  {
    ClearAcquire(sys, i, {}, SiqMutex);
    ClearInside(sys, i, {} + {SiqMutex}, TsListMutex, [Access(SessionList)]);
    ClearConcat(sys, i, {}, [Acquire(SiqMutex)], [Acquire(TsListMutex)] + [Access(SessionList)]);
  }

  lemma ClosingClear(sys: seq<Thread>, i: nat)
    requires Takes(sys, i, {}, McpMutex) && Takes(sys, i, {} + {McpMutex}, TsListMutex)
    requires Takes(sys, i, {} + {McpMutex}, ConnectionMutex)
    ensures Clear(sys, i, {}, CLOSING) && HeldAfter({}, CLOSING) == {McpMutex, ConnectionMutex}
  {
    var held := {} + {McpMutex};
    ClearAcquire(sys, i, {}, McpMutex);
    ClearSection(sys, i, held, TsListMutex, [Access(SessionList), Access(Connections)]);
    ClearConcat(sys, i, {}, [Acquire(McpMutex)], SEARCH);
    ClearAcquire(sys, i, held, ConnectionMutex);
    ClearConcat(sys, i, {}, [Acquire(McpMutex)] + SEARCH, [Acquire(ConnectionMutex)]);
  }

  /** The MCP command of an OPEN is sent, and answered. */
  lemma OpenClear(sys: seq<Thread>, i: nat, held: set<Lock>)
    requires Takes(sys, i, held, NqMutex)
    ensures Clear(sys, i, held, OPEN) && HeldAfter(held, OPEN) == held
  {
    var read := [AwaitMcp, Access(McpBuffer)];
    assert read[1..] == [Access(McpBuffer)] && read[1..][1..] == [];
    ClearSection(sys, i, held, NqMutex, [Access(Rings)]);
    ClearConcat(sys, i, held, PUT, read);
    AccessesClear(sys, i, held, [Access(McpBuffer)]);
    ClearConcat(sys, i, held, [Access(McpBuffer)], PUT + read);
    AccessesClear(sys, i, held, [Access(EarlyQueue)]);
    ClearConcat(sys, i, held, [Access(EarlyQueue)], NOTIFY_AND_WAIT);
  }

  lemma OpenedClear(sys: seq<Thread>, i: nat)
    requires Takes(sys, i, {}, McpMutex) && Takes(sys, i, {} + {McpMutex}, NqMutex)
    requires Takes(sys, i, {} + {McpMutex}, TsListMutex)
    ensures Clear(sys, i, {}, OPENED) && HeldAfter({}, OPENED) == {} + {McpMutex}
  {
    var held := {} + {McpMutex};
    ClearAcquire(sys, i, {}, McpMutex);
    OpenClear(sys, i, held);
    ClearConcat(sys, i, {}, [Acquire(McpMutex)], OPEN);
    ClearSection(sys, i, held, TsListMutex, [Access(SessionList)]);
    ClearConcat(sys, i, {}, [Acquire(McpMutex)] + OPEN, RELINK);
    AccessesClear(sys, i, held, [Access(Records), Access(EarlyQueue)]);
    ClearConcat(sys, i, {}, [Acquire(McpMutex)] + OPEN + RELINK, [Access(Records), Access(EarlyQueue)]);
  }

  /** An OPEN clears the queue of early notifications while the IRQ thread adds one. */
  lemma EarlyQueueRaces(none: seq<Thread>)
    requires AllIdle(none) && |none| == 3
    ensures !Exclusive(EarlyQueue)
  {
    var rest := NOTIFY_AND_WAIT + [Release(McpMutex)];
    ClearAcquire(none, 1, {}, McpMutex);
    QueueingClear(none[1 := Thread([Access(EarlyQueue)] + rest, HeldAfter({}, OPENING))]);
    Meet(none, 1, OpenSession(true, false), OPENING, rest,
         IRQ, IrqForUnknown, QUEUEING, [Release(TsListMutex)], EarlyQueue);
  }

  const DISCONNECTING: seq<Op> :=
    [Access(Notifications), Release(ConnectionMutex)] + (NOTIFY_AND_WAIT + [Release(McpMutex)])

  lemma Regrouped(m: seq<Op>, s: seq<Op>, c1: seq<Op>, c2: seq<Op>, c3: seq<Op>, n: seq<Op>, r: seq<Op>)
    ensures m + (s + (c1 + (c2 + c3) + n)) + r == m + s + c1 + (c2 + (c3 + (n + r)))
  {}

  lemma CloseScript()
    ensures Script(CloseSession(CLOSE_GP)) == CLOSING + ([Access(Connections)] + DISCONNECTING)
  {
    var left := [Access(Notifications), Release(ConnectionMutex)];
    assert CONNECTION_ACCESS == [Acquire(ConnectionMutex)] + ([Access(Connections)] + left);
    assert CloseOps(CLOSE_GP) == SEARCH + (CONNECTION_ACCESS + NOTIFY_AND_WAIT);
    Regrouped([Acquire(McpMutex)], SEARCH, [Acquire(ConnectionMutex)], [Access(Connections)], left,
              NOTIFY_AND_WAIT, [Release(McpMutex)]);
  }

  lemma NotifyScript()
    ensures Script(Notify(false)) == LOOKING + ([Access(Connections)] + [Release(TsListMutex), Release(SiqMutex)])
  {}

  /** closeSession takes a GP session's client away while a NOTIFY looks at it. */
  lemma ConnectionsRace(none: seq<Thread>)
    requires AllIdle(none) && |none| == 3
    ensures !Exclusive(Connections)
  {
    var rest, looked := DISCONNECTING, [Release(TsListMutex), Release(SiqMutex)];
    ClosingClear(none, 1);
    LookingClear(none[1 := Thread([Access(Connections)] + rest, HeldAfter({}, CLOSING))], 2);
    CloseScript();
    NotifyScript();
    Meet(none, 1, CloseSession(CLOSE_GP), CLOSING, rest, 2, Notify(false), LOOKING, looked, Connections);
  }

  lemma OpenScript()
    ensures Script(OpenSession(true, true)) == OPENED + ([Access(Notifications)] + [Release(McpMutex)])
  {}

  lemma IrqScript()
    ensures Script(IrqForSession)
         == DELIVERING + ([Access(Notifications)] + [Release(ConnectionMutex), Release(TsListMutex)])
  {}

  /** A new session is handed the early notifications while the IRQ thread gives it another one. */
  lemma NotificationsRace(none: seq<Thread>)
    requires AllIdle(none) && |none| == 3
    ensures !Exclusive(Notifications)
  {
    var rest, delivered := [Release(McpMutex)], [Release(ConnectionMutex), Release(TsListMutex)];
    OpenedClear(none, 1);
    DeliveringClear(none[1 := Thread([Access(Notifications)] + rest, HeldAfter({}, OPENED))]);
    OpenScript();
    IrqScript();
    Meet(none, 1, OpenSession(true, true), OPENED, rest, IRQ, IrqForSession, DELIVERING, delivered, Notifications);
  }

  /** In NQ_CONNECT, after mutex_tslist was given back and before the queue is written. */
  const DRAINING: seq<Op> := [Acquire(SiqMutex)] + SEARCH + [Access(Connections)]

  lemma DrainingClear(sys: seq<Thread>, i: nat)
    requires Takes(sys, i, {}, SiqMutex) && Takes(sys, i, {} + {SiqMutex}, TsListMutex)
    ensures Clear(sys, i, {}, DRAINING) && HeldAfter({}, DRAINING) == {} + {SiqMutex}
  {
    var held := {} + {SiqMutex};
    ClearAcquire(sys, i, {}, SiqMutex);
    ClearSection(sys, i, held, TsListMutex, [Access(SessionList), Access(Connections)]);
    ClearConcat(sys, i, {}, [Acquire(SiqMutex)], SEARCH);
    AccessesClear(sys, i, held, [Access(Connections)]);
    ClearConcat(sys, i, {}, [Acquire(SiqMutex)] + SEARCH, [Access(Connections)]);
  }

  lemma ConnectScript()
    ensures Script(NqConnect(0)) == DRAINING + ([Access(Notifications)] + [Release(SiqMutex)])
  {
    assert DetachLoop(0) == SEARCH + DRAIN;
  }

  /** NQ_CONNECT, with nothing but its own lock, writes the queue while the IRQ thread adds to it. */
  lemma DrainRaces(none: seq<Thread>)
    requires AllIdle(none) && |none| == 3
    ensures exists sys: seq<Thread> ::
      Reachable(sys) && Race(sys, 1, IRQ, Notifications) && sys[1].held == {SiqMutex}
  {
    var rest, delivered := [Release(SiqMutex)], [Release(ConnectionMutex), Release(TsListMutex)];
    DrainingClear(none, 1);
    var one := none[1 := Thread([Access(Notifications)] + rest, HeldAfter({}, DRAINING))];
    DeliveringClear(one);
    ConnectScript();
    IrqScript();
    Both(none, 1, NqConnect(0), DRAINING, [Access(Notifications)] + rest,
         IRQ, IrqForSession, DELIVERING, [Access(Notifications)] + delivered);
    var both := one[IRQ := Thread([Access(Notifications)] + delivered, HeldAfter({}, DELIVERING))];
    assert Race(both, 1, IRQ, Notifications) && both[1].held == {SiqMutex};
  }

  /** In an OPEN and in the loading of a token, before the command is written. */
  const WRITING: seq<Op> := [Acquire(McpMutex)] + [Access(EarlyQueue)]
  const LOADING: seq<Op> := [Acquire(RegMutex)] + [Access(EarlyQueue)]
  const SENDING: seq<Op> := PUT + [AwaitMcp, Access(McpBuffer)]

  lemma WritingScript()
    ensures Script(OpenSession(true, false)) == WRITING + ([Access(McpBuffer)] + (SENDING + [Release(McpMutex)]))
  {}

  lemma LoadingScript()
    ensures Script(Registry(LoadsToken)) == LOADING + ([Access(McpBuffer)] + (SENDING + [Release(RegMutex)]))
  {
    assert OPEN == [Access(EarlyQueue)] + ([Access(McpBuffer)] + SENDING);
  }

  /** A command is written into the MCP buffer by two threads at once. */
  lemma McpBufferRaces(none: seq<Thread>)
    requires AllIdle(none) && |none| == 3
    ensures !Exclusive(McpBuffer)
  {
    var written, loaded := SENDING + [Release(McpMutex)], SENDING + [Release(RegMutex)];
    ClearInside(none, 1, {}, McpMutex, [Access(EarlyQueue)]);
    var one := none[1 := Thread([Access(McpBuffer)] + written, HeldAfter({}, WRITING))];
    ClearInside(one, 2, {}, RegMutex, [Access(EarlyQueue)]);
    WritingScript();
    LoadingScript();
    Meet(none, 1, OpenSession(true, false), WRITING, written, 2, Registry(LoadsToken), LOADING, loaded, McpBuffer);
  }

  /** The command is sent, by one and then by the other. */
  lemma SendingClear(sys: seq<Thread>, i: nat, l: Lock)
    requires Takes(sys, i, {}, l) && Takes(sys, i, {} + {l}, NqMutex)
    ensures var ops := [Acquire(l)] + [Access(EarlyQueue), Access(McpBuffer)];
      Clear(sys, i, {}, ops + PUT) && HeldAfter({}, ops + PUT) == {} + {l}
  {
    ClearInside(sys, i, {}, l, [Access(EarlyQueue), Access(McpBuffer)]);
    ClearSection(sys, i, {} + {l}, NqMutex, [Access(Rings)]);
    ClearConcat(sys, i, {}, [Acquire(l)] + [Access(EarlyQueue), Access(McpBuffer)], PUT);
  }

  const READING: seq<Op> := [AwaitMcp, Access(McpBuffer)]

  lemma SentScripts()
    ensures Script(OpenSession(true, false))
         == [Acquire(McpMutex)] + [Access(EarlyQueue), Access(McpBuffer)] + PUT + (READING + [Release(McpMutex)])
    ensures Script(Registry(LoadsToken))
         == [Acquire(RegMutex)] + [Access(EarlyQueue), Access(McpBuffer)] + PUT + (READING + [Release(RegMutex)])
  {
    WritingScript();
    LoadingScript();
    assert SENDING == PUT + READING;
  }

  /** Two threads wait for an answer at the same time. */
  lemma TwoAwaitingReachable(none: seq<Thread>)
    requires AllIdle(none) && |none| == 3
    ensures exists sys :: Reachable(sys) && Awaiting(sys, 1) && Awaiting(sys, 2)
  {
    var sent := [Acquire(McpMutex)] + [Access(EarlyQueue), Access(McpBuffer)] + PUT;
    var loaded := [Acquire(RegMutex)] + [Access(EarlyQueue), Access(McpBuffer)] + PUT;
    var openRest, loadRest := READING + [Release(McpMutex)], READING + [Release(RegMutex)];
    SendingClear(none, 1, McpMutex);
    var one := none[1 := Thread(openRest, HeldAfter({}, sent))];
    SendingClear(one, 2, RegMutex);
    SentScripts();
    Both(none, 1, OpenSession(true, false), sent, openRest, 2, Registry(LoadsToken), loaded, loadRest);
    var both := one[2 := Thread(loadRest, HeldAfter({}, loaded))];
    assert Awaiting(both, 1) && Awaiting(both, 2);
  }

  /** It is the loading of a token, without mutex_mcp, in each such race. */
  lemma OnlyTokensRace(sys: seq<Thread>, i: nat, j: nat)
    requires Reachable(sys) && Race(sys, i, j, McpBuffer)
    ensures McpMutex in sys[i].held <==> RegMutex in sys[j].held && McpMutex !in sys[j].held
  {
    DisciplineReachable(sys);
    assert Ordered(sys[i].held, sys[i].rest, {}) && Ordered(sys[j].held, sys[j].rest, {});
    assert MayAsk(sys[i].held) && MayAsk(sys[j].held);
  }

  /**
   * Shared data are accessed by one thread at a time, in every run of any number of threads, exactly
   * if they are not the MCP buffer, the early notifications, or the connections or the notifications
   * of a session.
   */
  lemma ExclusiveExactlyWhen(d: Data)
    ensures Exclusive(d) <==> d != McpBuffer && d != EarlyQueue && d != Connections && d != Notifications
  {
    var none := [IDLE, IDLE, IDLE];
    match d
    case McpBuffer => McpBufferRaces(none);
    case EarlyQueue => EarlyQueueRaces(none);
    case Connections => ConnectionsRace(none);
    case Notifications => NotificationsRace(none);
    case _ =>
      forall sys, i: nat, j: nat | Reachable(sys) ensures !Race(sys, i, j, d) {
        if AboutTo(sys, i, d) && AboutTo(sys, j, d) { GuardedNeverRace(sys, i, j, d); }
      }
  }
}
