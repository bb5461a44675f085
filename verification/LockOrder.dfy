/**
 * The daemon's locks.  Every activity of every thread is the sequence of lock operations, accesses
 * to shared data and MCP waits its code performs; one order of the locks is respected by all of
 * them, so no run of any number of threads reaches a circular wait, and whoever waits for an MCP
 * answer is waiting for an IRQ thread that is not itself stuck.  LockRaces says which of the data
 * the locks protect.
 */
module LockOrder {
  datatype Lock = RegMutex | McpMutex | CloseMutex | SiqMutex | ClientsMutex | TsListMutex | ConnectionMutex | NqMutex

  /** What threads share; the last four belong to one session, the same one throughout. */
  datatype Data =
    | SessionList       // trustletSessions
    | McpBuffer         // mcpMessage
    | Rings             // the notification queues to and from the secure world
    | ClientList        // Server's clients
    | EarlyQueue        // MobiCoreDevice::notifications
    | Records           // the buffers of the session
    | Connections       // its deviceConnection and notificationConnection
    | Notifications     // its queue and its state

  datatype Op = Acquire(lock: Lock) | Release(lock: Lock) | Access(data: Data) | AwaitMcp

  /** The lock that is held wherever the data are accessed, if there is one. */
  function Guards(d: Data): set<Lock> {
    match d
    case SessionList => {TsListMutex}
    case Rings => {NqMutex}
    case ClientList => {ClientsMutex}
    case Records => {McpMutex}
    case _ => {}
  }

  /** The MCP answer, which the IRQ thread gives, has a place in the order too. */
  const ANSWER := 5

  function Rank(l: Lock): nat {
    match l
    case RegMutex => 0
    case McpMutex => 1
    case CloseMutex => 2
    case SiqMutex => 3
    case ClientsMutex => 4
    case TsListMutex => 6
    case ConnectionMutex => 7
    case NqMutex => 8
  }

  // ---------------------------------------------------------------- what the code does

  /** One pass through closeSession: what was found, and how the secure world answered. */
  datatype CloseShape = CloseShape(found: bool, gp: bool, failed: bool, again: bool, freed: bool)

  /** A registry command may ask the secure world about a blob, or give it a token. */
  datatype RegistryUse = FilesOnly | ChecksBlob | LoadsToken

  datatype Activity =
    | OpenDevice
    | CloseDevice(closes: seq<CloseShape>)        // CLOSE_DEVICE, and dropConnection
    | OpenSession(sent: bool, listed: bool)         // OPEN_SESSION, OPEN_TRUSTLET, OPEN_TRUSTED_APP
    | CloseSession(close: CloseShape)
    | NqConnect(servers: nat)
    | Notify(found: bool)
    | MapOrUnmap(sent: bool)
    | GetVersion(cached: bool)
    | Registry(use: RegistryUse)
    | TaExit(accepted: seq<bool>)                 // per dead session: was the close accepted
    | AcceptAndReap
    | IrqForMcp
    | IrqForUnknown
    | IrqForSession
    | IrqNothing

  function Locked(l: Lock, ops: seq<Op>): seq<Op> { [Acquire(l)] + ops + [Release(l)] }

  /** notify, and getNotification on the other side. */
  const PUT: seq<Op> := Locked(NqMutex, [Access(Rings)])

  /** The command is written, the answer awaited and read. */
  const NOTIFY_AND_WAIT: seq<Op> := [Access(McpBuffer)] + (PUT + [AwaitMcp, Access(McpBuffer)])

  function Sent(yes: bool): seq<Op> { if yes then NOTIFY_AND_WAIT else [] }

  /** The session list: for the session of a connection or with an id, for a dead one, to add or remove one. */
  const SEARCH: seq<Op> := Locked(TsListMutex, [Access(SessionList), Access(Connections)])
  const SEARCH_DEAD: seq<Op> := Locked(TsListMutex, [Access(SessionList), Access(Notifications)])
  const RELINK: seq<Op> := Locked(TsListMutex, [Access(SessionList)])

  /** closeSession's block for GP sessions, and handleIrq's. */
  const CONNECTION_ACCESS: seq<Op> := Locked(ConnectionMutex, [Access(Connections), Access(Notifications)])

  /** freeSession. */
  const FREE: seq<Op> := [Access(Records)] + RELINK

  /** The queue of early notifications is cleared before an OPEN, and handed over after it. */
  const OPEN: seq<Op> := [Access(EarlyQueue)] + NOTIFY_AND_WAIT
  const HAND_OVER: seq<Op> := RELINK + [Access(Records), Access(EarlyQueue), Access(Notifications)]

  /** closeSession, with freeSession at the end when the secure world agreed. */
  function CloseOps(c: CloseShape): seq<Op> {
    SEARCH
    + if !c.found then []
      else (if c.gp then CONNECTION_ACCESS else []) + (NOTIFY_AND_WAIT + (RetryOps(c) + if c.freed then FREE else []))
  }

  /** The first close failed: the state of a GP session is looked at, and it may be sent again. */
  function RetryOps(c: CloseShape): seq<Op> {
    if c.gp && c.failed then [Access(Notifications)] + Sent(c.again) else []
  }

  /** The loop of MobiCoreDevice::close: search, close, and search again until nothing is found. */
  function CloseLoop(closes: seq<CloseShape>): seq<Op> {
    if closes == [] then SEARCH
    else SEARCH + (CloseOps(closes[0]) + CloseLoop(closes[1..]))
  }

  /** The inner loop of handleTaExit. */
  function TaExitLoop(closes: seq<bool>): seq<Op> {
    if closes == [] then SEARCH_DEAD
    else SEARCH_DEAD + ((NOTIFY_AND_WAIT + if closes[0] then FREE else []) + TaExitLoop(closes[1..]))
  }

  const CLIENTS: seq<Op> := Locked(ClientsMutex, [Access(ClientList)])

  /** What was queued is written to the new connection; mutex_tslist is given back before. */
  const DRAIN: seq<Op> := [Access(Connections), Access(Notifications)]

  /** processNqConnect asks every server to detach the connection, and registers it. */
  function DetachLoop(servers: nat): seq<Op> {
    if servers == 0 then SEARCH + DRAIN else CLIENTS + DetachLoop(servers - 1)
  }

  /** loadToken talks to the secure world without mutex_mcp. */
  function RegistryOps(use: RegistryUse): seq<Op> {
    match use
    case FilesOnly => []
    case ChecksBlob => Locked(McpMutex, OPEN)
    case LoadsToken => OPEN
  }

  function Script(a: Activity): seq<Op> {
    match a
    case OpenDevice => Locked(McpMutex, [])
    case CloseDevice(closes) => Locked(McpMutex, Locked(CloseMutex, CloseLoop(closes)))
    case OpenSession(sent, listed) =>
      Locked(McpMutex, if !sent then [] else OPEN + if listed then HAND_OVER else [])
    case CloseSession(close) => Locked(McpMutex, CloseOps(close))
    case NqConnect(servers) => Locked(SiqMutex, DetachLoop(servers))
    case Notify(found) => Locked(SiqMutex, SEARCH + if found then PUT else [])
    case MapOrUnmap(sent) => Locked(McpMutex, SEARCH + ([Access(Records)] + Sent(sent)))
    case GetVersion(cached) => Locked(McpMutex, Sent(!cached))
    case Registry(use) => Locked(RegMutex, RegistryOps(use))
    case TaExit(closes) => Locked(McpMutex, TaExitLoop(closes))
    case AcceptAndReap => CLIENTS + CLIENTS
    case IrqForMcp => PUT
    case IrqForUnknown => PUT + Locked(TsListMutex, [Access(SessionList), Access(EarlyQueue)])
    case IrqForSession =>
      PUT + Locked(TsListMutex, [Access(SessionList)] + CONNECTION_ACCESS)
    case IrqNothing => PUT
  }

  predicate ByIrq(a: Activity) {
    a.IrqForMcp? || a.IrqForUnknown? || a.IrqForSession? || a.IrqNothing?
  }

  // ---------------------------------------------------------------- the order is respected

  predicate Protected(held: set<Lock>, d: Data) { Guards(d) <= held && (d.McpBuffer? ==> MayAsk(held)) }

  /** The MCP buffer is used with mutex_mcp, or with the registry lock to load a token. */
  predicate MayAsk(held: set<Lock>) { McpMutex in held || RegMutex in held }

  /**
   * Started with the locks in `held`, the operations end with those in `after`; each lock comes
   * after all that are held, data are accessed with their guard held, and an MCP answer is awaited
   * only with nothing behind ANSWER.
   */
  ghost predicate Ordered(held: set<Lock>, ops: seq<Op>, after: set<Lock>)
    decreases |ops|
  {
    if ops == [] then held == after
    else
      match ops[0]
      case Acquire(l) => (forall h :: h in held ==> Rank(h) < Rank(l)) && Ordered(held + {l}, ops[1..], after)
      case Release(l) => l in held && Ordered(held - {l}, ops[1..], after)
      case Access(d) => Protected(held, d) && Ordered(held, ops[1..], after)
      case AwaitMcp =>
        MayAsk(held) && (forall h :: h in held ==> Rank(h) < ANSWER) && Ordered(held, ops[1..], after)
  }

  lemma {:induction false} OrderedConcat(held: set<Lock>, a: seq<Op>, mid: set<Lock>, b: seq<Op>, after: set<Lock>)
    requires Ordered(held, a, mid) && Ordered(mid, b, after)
    ensures Ordered(held, a + b, after)
    decreases |a|
  {
    if a == [] {
      assert a + b == b;
    } else {
      assert (a + b)[1..] == a[1..] + b;
      match a[0]
      case Acquire(l) => OrderedConcat(held + {l}, a[1..], mid, b, after);
      case Release(l) => OrderedConcat(held - {l}, a[1..], mid, b, after);
      case Access(_) => OrderedConcat(held, a[1..], mid, b, after);
      case AwaitMcp => OrderedConcat(held, a[1..], mid, b, after);
    }
  }

  lemma OrderedLocked(held: set<Lock>, l: Lock, ops: seq<Op>)
    requires forall h :: h in held ==> Rank(h) < Rank(l)
    requires Ordered(held + {l}, ops, held + {l})
    ensures Ordered(held, Locked(l, ops), held)
  {
    assert l !in held;
    assert held + {l} - {l} == held;
    assert Ordered(held, [], held);
    assert [Release(l)][1..] == [];
    assert Ordered(held + {l}, [Release(l)], held);
    OrderedConcat(held + {l}, ops, held + {l}, [Release(l)], held);
    assert Locked(l, ops) == [Acquire(l)] + (ops + [Release(l)]);
    assert Locked(l, ops)[1..] == ops + [Release(l)];
  }

  /** Below TsListMutex: nothing held that comes after the MCP answer. */
  predicate Early(held: set<Lock>) { forall h :: h in held ==> Rank(h) < ANSWER }

  lemma {:induction false} AccessesOrdered(held: set<Lock>, ops: seq<Op>)
    requires forall k :: 0 <= k < |ops| ==> ops[k].Access? && Protected(held, ops[k].data)
    ensures Ordered(held, ops, held)
  {
    if ops != [] { AccessesOrdered(held, ops[1..]); }
  }

  /** A critical section that only accesses data. */
  lemma SectionOrdered(held: set<Lock>, l: Lock, ops: seq<Op>)
    requires forall h :: h in held ==> Rank(h) < Rank(l)
    requires forall k :: 0 <= k < |ops| ==> ops[k].Access? && Protected(held + {l}, ops[k].data)
    ensures Ordered(held, Locked(l, ops), held)
  {
    AccessesOrdered(held + {l}, ops);
    OrderedLocked(held, l, ops);
  }

  lemma PutOrdered(held: set<Lock>)
    requires NqMutex !in held
    ensures Ordered(held, PUT, held)
  {
    SectionOrdered(held, NqMutex, [Access(Rings)]);
  }

  lemma SearchOrdered(held: set<Lock>)
    requires Early(held)
    ensures Ordered(held, SEARCH, held)
  {
    SectionOrdered(held, TsListMutex, [Access(SessionList), Access(Connections)]);
  }

  lemma SearchDeadOrdered(held: set<Lock>)
    requires Early(held)
    ensures Ordered(held, SEARCH_DEAD, held)
  {
    SectionOrdered(held, TsListMutex, [Access(SessionList), Access(Notifications)]);
  }

  lemma RelinkOrdered(held: set<Lock>)
    requires Early(held)
    ensures Ordered(held, RELINK, held)
  {
    SectionOrdered(held, TsListMutex, [Access(SessionList)]);
  }

  lemma ConnectionOrdered(held: set<Lock>)
    requires Early(held) || held == {TsListMutex}
    ensures Ordered(held, CONNECTION_ACCESS, held)
  {
    SectionOrdered(held, ConnectionMutex, [Access(Connections), Access(Notifications)]);
  }

  lemma DrainOrdered(held: set<Lock>)
    ensures Ordered(held, DRAIN, held)
  {
    AccessesOrdered(held, DRAIN);
  }

  lemma WaitOrdered(held: set<Lock>)
    requires MayAsk(held) && Early(held)
    ensures Ordered(held, NOTIFY_AND_WAIT, held)
  {
    var read := [AwaitMcp, Access(McpBuffer)];
    PutOrdered(held);
    ReadOrdered(held, read);
    AccessesOrdered(held, [Access(McpBuffer)]);
    OrderedConcat(held, PUT, held, read, held);
    OrderedConcat(held, [Access(McpBuffer)], held, PUT + read, held);
  }

  lemma ReadOrdered(held: set<Lock>, read: seq<Op>)
    requires MayAsk(held) && Early(held) && read == [AwaitMcp, Access(McpBuffer)]
    ensures Ordered(held, read, held)
  {
    assert read[1..] == [Access(McpBuffer)];
    AccessesOrdered(held, read[1..]);
  }

  lemma OpenOrdered(held: set<Lock>)
    requires MayAsk(held) && Early(held)
    ensures Ordered(held, OPEN, held)
  {
    WaitOrdered(held);
    AccessesOrdered(held, [Access(EarlyQueue)]);
    OrderedConcat(held, [Access(EarlyQueue)], held, NOTIFY_AND_WAIT, held);
  }

  lemma FreeOrdered(held: set<Lock>)
    requires McpMutex in held && Early(held)
    ensures Ordered(held, FREE, held)
  {
    RelinkOrdered(held);
    AccessesOrdered(held, [Access(Records)]);
    OrderedConcat(held, [Access(Records)], held, RELINK, held);
  }

  lemma HandOverOrdered(held: set<Lock>)
    requires McpMutex in held && Early(held)
    ensures Ordered(held, HAND_OVER, held)
  {
    var over := [Access(Records), Access(EarlyQueue), Access(Notifications)];
    RelinkOrdered(held);
    AccessesOrdered(held, over);
    OrderedConcat(held, RELINK, held, over, held);
  }

  lemma RetryOrdered(held: set<Lock>, c: CloseShape)
    requires McpMutex in held && Early(held)
    ensures Ordered(held, RetryOps(c), held)
  {
    WaitOrdered(held);
    AccessesOrdered(held, []);
    AccessesOrdered(held, [Access(Notifications)]);
    OrderedConcat(held, [Access(Notifications)], held, Sent(c.again), held);
  }

  /** Four parts one after the other. */
  lemma OneByOne(held: set<Lock>, a: seq<Op>, b: seq<Op>, c: seq<Op>, d: seq<Op>)
    requires Ordered(held, a, held) && Ordered(held, b, held) && Ordered(held, c, held) && Ordered(held, d, held)
    ensures Ordered(held, a + (b + (c + d)), held)
  {
    OrderedConcat(held, c, held, d, held);
    OrderedConcat(held, b, held, c + d, held);
    OrderedConcat(held, a, held, b + (c + d), held);
  }

  lemma CloseOrdered(held: set<Lock>, c: CloseShape)
    requires McpMutex in held && Early(held)
    ensures Ordered(held, CloseOps(c), held)
  {
    AccessesOrdered(held, []);
    WaitOrdered(held);
    FreeOrdered(held);
    RetryOrdered(held, c);
    ConnectionOrdered(held);
    SearchOrdered(held);
    var free, disconnect := if c.freed then FREE else [], if c.gp then CONNECTION_ACCESS else [];
    OneByOne(held, disconnect, NOTIFY_AND_WAIT, RetryOps(c), free);
    OrderedConcat(held, SEARCH, held,
                  if !c.found then [] else disconnect + (NOTIFY_AND_WAIT + (RetryOps(c) + free)), held);
  }

  lemma {:induction false} CloseLoopOrdered(held: set<Lock>, closes: seq<CloseShape>)
    requires McpMutex in held && Early(held)
    ensures Ordered(held, CloseLoop(closes), held)
  {
    SearchOrdered(held);
    if closes != [] {
      CloseOrdered(held, closes[0]);
      CloseLoopOrdered(held, closes[1..]);
      OrderedConcat(held, CloseOps(closes[0]), held, CloseLoop(closes[1..]), held);
      OrderedConcat(held, SEARCH, held, CloseOps(closes[0]) + CloseLoop(closes[1..]), held);
    }
  }

  lemma {:induction false} TaExitLoopOrdered(held: set<Lock>, closes: seq<bool>)
    requires McpMutex in held && Early(held)
    ensures Ordered(held, TaExitLoop(closes), held)
  {
    SearchDeadOrdered(held);
    if closes != [] {
      AccessesOrdered(held, []);
      WaitOrdered(held);
      FreeOrdered(held);
      var free := if closes[0] then FREE else [];
      TaExitLoopOrdered(held, closes[1..]);
      OrderedConcat(held, NOTIFY_AND_WAIT, held, free, held);
      OrderedConcat(held, NOTIFY_AND_WAIT + free, held, TaExitLoop(closes[1..]), held);
      OrderedConcat(held, SEARCH_DEAD, held, NOTIFY_AND_WAIT + free + TaExitLoop(closes[1..]), held);
    }
  }

  lemma {:induction false} DetachLoopOrdered(held: set<Lock>, servers: nat)
    requires forall h :: h in held ==> Rank(h) < Rank(ClientsMutex)
    ensures Ordered(held, DetachLoop(servers), held)
  {
    if servers > 0 {
      SectionOrdered(held, ClientsMutex, [Access(ClientList)]);
      DetachLoopOrdered(held, servers - 1);
      OrderedConcat(held, CLIENTS, held, DetachLoop(servers - 1), held);
    } else {
      RegisterOrdered(held);
    }
  }

  lemma RegisterOrdered(held: set<Lock>)
    requires Early(held)
    ensures Ordered(held, SEARCH + DRAIN, held)
  {
    SearchOrdered(held);
    DrainOrdered(held);
    OrderedConcat(held, SEARCH, held, DRAIN, held);
  }

  /** Every activity of the daemon respects the one order. */
  lemma ScriptOrdered(a: Activity)
    ensures Ordered({}, Script(a), {})
  {
    match a
    case NqConnect(servers) => NqConnectOrdered(servers);
    case Notify(found) => NotifyOrdered(found);
    case AcceptAndReap => ReapOrdered();
    case Registry(use) => RegistryOrdered(use);
    case _ => if ByIrq(a) { IrqOrdered(a); } else { McpOrdered(a); }
  }

  lemma McpOrdered(a: Activity)
    requires !ByIrq(a) && !a.NqConnect? && !a.Notify? && !a.AcceptAndReap? && !a.Registry?
    ensures Ordered({}, Script(a), {})
  {
    match a
    case OpenDevice =>
      AccessesOrdered({McpMutex}, []);
      OrderedAlone(McpMutex, []);
    case CloseDevice(closes) => CloseDeviceOrdered(closes);
    case OpenSession(sent, listed) => OpenSessionOrdered(sent, listed);
    case CloseSession(close) =>
      CloseOrdered({McpMutex}, close);
      OrderedAlone(McpMutex, CloseOps(close));
    case MapOrUnmap(sent) => MapOrdered(sent);
    case GetVersion(cached) =>
      SentOrdered({McpMutex}, !cached);
      OrderedAlone(McpMutex, Sent(!cached));
    case TaExit(closes) =>
      TaExitLoopOrdered({McpMutex}, closes);
      OrderedAlone(McpMutex, TaExitLoop(closes));
  }

  lemma SentOrdered(held: set<Lock>, yes: bool)
    requires McpMutex in held && Early(held)
    ensures Ordered(held, Sent(yes), held)
  {
    WaitOrdered(held);
    AccessesOrdered(held, []);
  }

  lemma OpenSessionOrdered(sent: bool, listed: bool)
    ensures Ordered({}, Script(OpenSession(sent, listed)), {})
  {
    var held := {McpMutex};
    AccessesOrdered(held, []);
    OpenOrdered(held);
    HandOverOrdered(held);
    var over := if listed then HAND_OVER else [];
    OrderedConcat(held, OPEN, held, over, held);
    OrderedAlone(McpMutex, if !sent then [] else OPEN + over);
  }

  lemma MapOrdered(sent: bool)
    ensures Ordered({}, Script(MapOrUnmap(sent)), {})
  {
    var held := {McpMutex};
    SearchOrdered(held);
    SentOrdered(held, sent);
    AccessesOrdered(held, [Access(Records)]);
    OneAfterTwo(held, SEARCH, [Access(Records)], Sent(sent));
    OrderedAlone(McpMutex, SEARCH + ([Access(Records)] + Sent(sent)));
  }

  lemma OneAfterTwo(held: set<Lock>, a: seq<Op>, b: seq<Op>, c: seq<Op>)
    requires Ordered(held, a, held) && Ordered(held, b, held) && Ordered(held, c, held)
    ensures Ordered(held, a + (b + c), held)
  {
    OrderedConcat(held, b, held, c, held);
    OrderedConcat(held, a, held, b + c, held);
  }

  lemma CloseDeviceOrdered(closes: seq<CloseShape>)
    ensures Ordered({}, Script(CloseDevice(closes)), {})
  {
    var held := {McpMutex};
    CloseLoopOrdered(held + {CloseMutex}, closes);
    OrderedLocked(held, CloseMutex, CloseLoop(closes));
    OrderedAlone(McpMutex, Locked(CloseMutex, CloseLoop(closes)));
  }

  /** A lock taken with nothing else held. */
  lemma OrderedAlone(l: Lock, ops: seq<Op>)
    requires Ordered({l}, ops, {l})
    ensures Ordered({}, Locked(l, ops), {})
  {
    assert {} + {l} == {l};
    OrderedLocked({}, l, ops);
  }

  lemma NqConnectOrdered(servers: nat)
    ensures Ordered({}, Script(NqConnect(servers)), {})
  {
    DetachLoopOrdered({SiqMutex}, servers);
    OrderedAlone(SiqMutex, DetachLoop(servers));
  }

  lemma NotifyOrdered(found: bool)
    ensures Ordered({}, Script(Notify(found)), {})
  {
    var held, put := {SiqMutex}, if found then PUT else [];
    AccessesOrdered(held, []);
    PutOrdered(held);
    SearchOrdered(held);
    OrderedConcat(held, SEARCH, held, put, held);
    OrderedAlone(SiqMutex, SEARCH + put);
  }

  lemma ReapOrdered()
    ensures Ordered({}, Script(AcceptAndReap), {})
  {
    SectionOrdered({}, ClientsMutex, [Access(ClientList)]);
    OrderedConcat({}, CLIENTS, {}, CLIENTS, {});
  }

  lemma RegistryOrdered(use: RegistryUse)
    ensures Ordered({}, Script(Registry(use)), {})
  {
    match use {
      case FilesOnly => AccessesOrdered({RegMutex}, []);
      case ChecksBlob => CheckLoadOrdered();
      case LoadsToken => OpenOrdered({RegMutex});
    }
    OrderedAlone(RegMutex, RegistryOps(use));
  }

  lemma CheckLoadOrdered()
    ensures Ordered({RegMutex}, Locked(McpMutex, OPEN), {RegMutex})
  {
    OpenOrdered({RegMutex} + {McpMutex});
    OrderedLocked({RegMutex}, McpMutex, OPEN);
  }

  lemma IrqOrdered(a: Activity)
    requires ByIrq(a)
    ensures Ordered({}, Script(a), {})
  {
    PutOrdered({});
    if a.IrqForUnknown? {
      UnknownOrdered([Access(SessionList), Access(EarlyQueue)]);
    } else if a.IrqForSession? {
      DeliverOrdered({TsListMutex});
      OrderedAlone(TsListMutex, [Access(SessionList)] + CONNECTION_ACCESS);
      OrderedConcat({}, PUT, {}, Locked(TsListMutex, [Access(SessionList)] + CONNECTION_ACCESS), {});
    }
  }

  lemma UnknownOrdered(queued: seq<Op>)
    requires queued == [Access(SessionList), Access(EarlyQueue)]
    ensures Ordered({}, PUT + Locked(TsListMutex, queued), {})
  {
    PutOrdered({});
    SectionOrdered({}, TsListMutex, queued);
    OrderedConcat({}, PUT, {}, Locked(TsListMutex, queued), {});
  }

  lemma DeliverOrdered(held: set<Lock>)
    requires held == {TsListMutex}
    ensures Ordered(held, [Access(SessionList)] + CONNECTION_ACCESS, held)
  {
    ConnectionOrdered(held);
    AccessesOrdered(held, [Access(SessionList)]);
    OrderedConcat(held, [Access(SessionList)], held, CONNECTION_ACCESS, held);
  }

  /** The IRQ thread takes no lock before ANSWER, and never waits for an answer itself. */
  predicate IrqSafe(ops: seq<Op>) {
    forall i :: 0 <= i < |ops| ==> !ops[i].AwaitMcp? && (ops[i].Acquire? ==> Rank(ops[i].lock) > ANSWER)
  }

  lemma IrqScriptSafe(a: Activity)
    requires ByIrq(a)
    ensures IrqSafe(Script(a))
  {}

  // ---------------------------------------------------------------- runs of any number of threads

  datatype Thread = Thread(rest: seq<Op>, held: set<Lock>)

  /** Thread 0 is the IRQ thread. */
  const IRQ := 0

  datatype Move = Begin(i: nat, a: Activity) | Run(i: nat)

  predicate LockFree(sys: seq<Thread>, l: Lock) {
    forall j :: 0 <= j < |sys| ==> l !in sys[j].held
  }

  predicate CanMove(sys: seq<Thread>, m: Move) {
    m.i < |sys| &&
    match m
    case Begin(i, a) => sys[i].rest == [] && (i == IRQ <==> ByIrq(a))
    case Run(i) => sys[i].rest != [] && (sys[i].rest[0].Acquire? ==> LockFree(sys, sys[i].rest[0].lock))
  }

  function Advance(t: Thread): Thread
    requires t.rest != []
  {
    match t.rest[0]
    case Acquire(l) => Thread(t.rest[1..], t.held + {l})
    case Release(l) => Thread(t.rest[1..], t.held - {l})
    case Access(_) => Thread(t.rest[1..], t.held)
    case AwaitMcp => Thread(t.rest[1..], t.held)
  }

  function Moved(sys: seq<Thread>, m: Move): seq<Thread>
    requires CanMove(sys, m)
  {
    match m
    case Begin(i, a) => sys[i := sys[i].(rest := Script(a))]
    case Run(i) => sys[i := Advance(sys[i])]
  }

  ghost predicate Runs(sys: seq<Thread>, moves: seq<Move>)
    decreases |moves|
  {
    moves == [] || (CanMove(sys, moves[0]) && Runs(Moved(sys, moves[0]), moves[1..]))
  }

  ghost function After(sys: seq<Thread>, moves: seq<Move>): seq<Thread>
    requires Runs(sys, moves)
    decreases |moves|
  {
    if moves == [] then sys else After(Moved(sys, moves[0]), moves[1..])
  }

  predicate AllIdle(sys: seq<Thread>) {
    |sys| > 0 && forall i :: 0 <= i < |sys| ==> sys[i] == Thread([], {})
  }

  ghost predicate Reachable(sys: seq<Thread>) {
    exists start, moves :: AllIdle(start) && Runs(start, moves) && After(start, moves) == sys
  }

  ghost predicate Disciplined(sys: seq<Thread>) {
    && |sys| > 0
    && (forall i :: 0 <= i < |sys| ==> Ordered(sys[i].held, sys[i].rest, {}))
    && (forall i, j :: 0 <= i < j < |sys| ==> sys[i].held !! sys[j].held)
    && IrqSafe(sys[IRQ].rest)
  }

  lemma DisciplineKept(sys: seq<Thread>, m: Move)
    requires Disciplined(sys) && CanMove(sys, m)
    ensures Disciplined(Moved(sys, m))
  {
    match m
    case Begin(i, a) =>
      assert Ordered(sys[i].held, sys[i].rest, {});
      ScriptOrdered(a);
      if i == IRQ { IrqScriptSafe(a); }
    case Run(i) =>
      assert Ordered(sys[i].held, sys[i].rest, {});
  }

  lemma {:induction false} DisciplineRuns(sys: seq<Thread>, moves: seq<Move>)
    requires Disciplined(sys) && Runs(sys, moves)
    ensures Disciplined(After(sys, moves))
    decreases |moves|
  {
    if moves != [] {
      DisciplineKept(sys, moves[0]);
      DisciplineRuns(Moved(sys, moves[0]), moves[1..]);
    }
  }

  lemma DisciplineReachable(sys: seq<Thread>)
    requires Reachable(sys)
    ensures Disciplined(sys)
  {
    var start, moves :| AllIdle(start) && Runs(start, moves) && After(start, moves) == sys;
    DisciplineRuns(start, moves);
  }

  // ---------------------------------------------------------------- who waits for whom

  predicate Awaiting(sys: seq<Thread>, i: nat) {
    i < |sys| && sys[i].rest != [] && sys[i].rest[0].AwaitMcp?
  }

  /** Thread i needs a lock that j holds, or the MCP answer that the IRQ thread brings. */
  predicate WaitsFor(sys: seq<Thread>, i: nat, j: nat) {
    && i < |sys| && j < |sys| && sys[i].rest != []
    && ((sys[i].rest[0].Acquire? && sys[i].rest[0].lock in sys[j].held) || (sys[i].rest[0].AwaitMcp? && j == IRQ))
  }

  /** How far up the order a thread stands with what it is waiting for. */
  function Level(sys: seq<Thread>, i: nat): nat
    requires i < |sys|
    ensures Level(sys, i) <= 9
  {
    if sys[i].rest == [] || sys[i].rest[0].Release? || sys[i].rest[0].Access? then 9
    else if sys[i].rest[0].AwaitMcp? then ANSWER
    else Rank(sys[i].rest[0].lock)
  }

  lemma LevelGrows(sys: seq<Thread>, i: nat, j: nat)
    requires Disciplined(sys) && WaitsFor(sys, i, j)
    ensures Level(sys, i) < Level(sys, j)
  {
    assert Ordered(sys[j].held, sys[j].rest, {});
  }

  /** Each thread of the chain waits for the next one. */
  predicate Chain(sys: seq<Thread>, c: seq<nat>) {
    c != [] && c[0] < |sys| && forall k :: 0 <= k < |c| - 1 ==> WaitsFor(sys, c[k], c[k + 1])
  }

  lemma {:induction false} ChainClimbs(sys: seq<Thread>, c: seq<nat>)
    requires Disciplined(sys) && Chain(sys, c)
    ensures forall k :: 0 <= k < |c| ==> c[k] < |sys| && Level(sys, c[0]) + k <= Level(sys, c[k])
  {
    if |c| > 1 {
      var front := c[..|c| - 1];
      assert forall k :: 0 <= k < |front| - 1 ==> WaitsFor(sys, front[k], front[k + 1]);
      ChainClimbs(sys, front);
      assert WaitsFor(sys, c[|c| - 2], c[|c| - 1]);
      LevelGrows(sys, c[|c| - 2], c[|c| - 1]);
    }
  }

  /** There is never a circular wait. */
  lemma NoCircularWait(sys: seq<Thread>, c: seq<nat>)
    requires Reachable(sys) && Chain(sys, c)
    ensures !WaitsFor(sys, c[|c| - 1], c[0])
  {
    DisciplineReachable(sys);
    ChainClimbs(sys, c);
    if WaitsFor(sys, c[|c| - 1], c[0]) { LevelGrows(sys, c[|c| - 1], c[0]); }
  }

  /** Of two threads that await an MCP answer one has mutex_mcp, and the other one loads a token. */
  lemma TwoAwait(sys: seq<Thread>, i: nat, j: nat)
    requires Reachable(sys) && Awaiting(sys, i) && Awaiting(sys, j) && i != j
    ensures McpMutex in sys[i].held <==> RegMutex in sys[j].held && McpMutex !in sys[j].held
  {
    DisciplineReachable(sys);
    assert Ordered(sys[i].held, sys[i].rest, {}) && Ordered(sys[j].held, sys[j].rest, {});
    assert MayAsk(sys[i].held) && MayAsk(sys[j].held);
  }

  /** Nobody the IRQ thread waits for, directly or not, is waiting for an MCP answer. */
  lemma IrqNotBehindAnswer(sys: seq<Thread>, c: seq<nat>)
    requires Reachable(sys) && Chain(sys, c) && c[0] == IRQ
    ensures forall k :: 0 <= k < |c| ==> !Awaiting(sys, c[k])
  {
    DisciplineReachable(sys);
    if |c| > 1 {
      assert WaitsFor(sys, c[0], c[1]);
      ChainClimbs(sys, c);
    }
  }

  predicate Stuck(sys: seq<Thread>, i: nat) { exists j: nat :: j < |sys| && WaitsFor(sys, i, j) }

  /** A chain from i that ends at a thread waiting for nobody. */
  ghost predicate Unblocked(sys: seq<Thread>, i: nat, c: seq<nat>) {
    Chain(sys, c) && c[0] == i && c[|c| - 1] < |sys| && !Stuck(sys, c[|c| - 1])
  }

  /** A thread that can take its next step, or the IRQ thread with nothing to do yet. */
  ghost predicate Free(sys: seq<Thread>, i: nat) {
    CanMove(sys, Run(i)) || (i == IRQ && CanMove(sys, Begin(IRQ, IrqForMcp)))
  }

  /** Whoever waits, waits in the end for a thread that is free to go on. */
  lemma SomebodyMoves(sys: seq<Thread>, i: nat)
    requires Reachable(sys) && Stuck(sys, i)
    ensures exists c :: Unblocked(sys, i, c) && Free(sys, c[|c| - 1])
  {
    DisciplineReachable(sys);
    EndOfChain(sys, i);
    var c :| Unblocked(sys, i, c);
    var last := c[|c| - 1];
    assert |c| > 1;
    assert WaitsFor(sys, c[|c| - 2], last);
    assert Ordered(sys[last].held, sys[last].rest, {});
    if sys[last].rest != [] { NotStuckRuns(sys, last); }
  }

  lemma {:induction false} EndOfChain(sys: seq<Thread>, i: nat)
    requires Disciplined(sys) && i < |sys|
    ensures exists c :: Unblocked(sys, i, c)
    decreases 9 - Level(sys, i)
  {
    if Stuck(sys, i) {
      var j: nat :| j < |sys| && WaitsFor(sys, i, j);
      LevelGrows(sys, i, j);
      EndOfChain(sys, j);
      var rest :| Unblocked(sys, j, rest);
      var c := [i] + rest;
      forall k | 0 <= k < |c| - 1 ensures WaitsFor(sys, c[k], c[k + 1]) {
        if k > 0 { assert WaitsFor(sys, rest[k - 1], rest[k]); }
      }
      assert Unblocked(sys, i, c);
    } else {
      assert Unblocked(sys, i, [i]);
    }
  }

  lemma NotStuckRuns(sys: seq<Thread>, i: nat)
    requires Disciplined(sys) && i < |sys| && !Stuck(sys, i) && sys[i].rest != []
    ensures CanMove(sys, Run(i))
  {
    if sys[i].rest[0].Acquire? {
      var l := sys[i].rest[0].lock;
      forall j: nat | j < |sys| ensures l !in sys[j].held { assert !WaitsFor(sys, i, j); }
    }
  }
}
