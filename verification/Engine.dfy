/**
 * The daemon's session engine as a step machine: the command threads, the S-SIQ (IRQ) thread, the
 * TA-exit thread and the secure world, interleaved in any order.
 *
 * mutex_mcp has one holder at a time, so the code run under it is one program counter, `pc`.
 * mutex_tslist is held across steps only by the IRQ thread (IrqFound, IrqQueued), mutex_connection
 * only by the IRQ thread (IrqQueued); every other critical section of these two locks is one step
 * that is enabled only while the lock is free.
 */
module Engine {
  import opened Common
  import opened SessionSpec

  type Ptr = nat

  /** The MCP commands that act on sessions, and the secure world's answers. */
  datatype Command =
    | OpenCmd(gp: bool, tci: Option<Handle>)
    | CloseCmd(sid: Sid)
    | MapCmd(sid: Sid, h: Handle)
    | UnmapCmd(sid: Sid, h: Handle)

  datatype Answer = Ok | Opened(sid: Sid) | TaskFailed | Refused

  /** While an OPEN is being carried out, the secure world may have started the session already. */
  datatype McpBuffer = Blank | Request(cmd: Command, started: Option<Sid>) | Response(answer: Answer)

  /** On whose behalf a session is being closed. */
  datatype Caller = OnCommand(c: Conn) | OnDeviceClose(c: Conn) | OnTaExit

  /** What the holder of mutex_mcp does next; Free means nobody holds it. */
  datatype Pc =
    | Free
    | OpenWait(c: Conn, gp: bool, tci: Option<Handle>, loadLen: nat, from: nat)
    | DevScan(c: Conn)
    | CloseMark(who: Caller, p: Ptr)
    | CloseIssue(who: Caller, p: Ptr, again: bool)
    | CloseWait(who: Caller, p: Ptr, again: bool)
    | CloseCheck(who: Caller, p: Ptr)
    | FreeBuffers(who: Caller, p: Ptr)
    | Unlink(who: Caller, p: Ptr)
    | Delete(who: Caller, p: Ptr)
    | TaScan
    | MapWait(c: Conn, p: Ptr, h: Handle)
    | UnmapWait(c: Conn, p: Ptr, h: Handle)

  datatype IrqPc = IrqIdle | IrqGot(n: Notification) | IrqFound(n: Notification, p: Ptr) | IrqQueued(p: Ptr)

  datatype TaPc = Asleep | Awake | InMcp

  /** An open session as the secure world sees it; only a GP session announces its exit. */
  datatype SwSession = SwSession(gp: bool, exited: bool, maps: multiset<Handle>)

  datatype State = State(
    heap: map<Ptr, Session>,        // allocated TrustletSession objects
    list: seq<Ptr>,                 // trustletSessions
    unknown: seq<Notification>,     // MobiCoreDevice::notifications
    mcp: McpBuffer,
    ring: seq<Notification>,        // SWd -> NWd notification queue
    mcpSem: nat,                    // mcpSessionNotification
    tokens: nat,                    // TA-exit semaphore
    pc: Pc, irq: IrqPc, ta: TaPc,
    sw: map<Sid, SwSession>,        // sessions open in the secure world
    locks: multiset<Handle>,        // kernel lock counts
    clients: set<Conn>,             // connections owned by a Client object
    dead: set<Conn>,                // clients that have stopped issuing commands
    exiting: set<Conn>,             // dead clients the worker has dropped
    devices: set<Conn>,             // connections with connectionData set
    nextConn: Conn,
    log: seq<Notification>,         // session notifications handled by the IRQ thread so far
    kept: multiset<Handle>)         // locks an error return or a second map of a buffer left behind

  const Init := State(map[], [], [], Blank, [], 0, 0, Free, IrqIdle, Asleep, map[],
                      multiset{}, {}, {}, {}, {}, 0, [], multiset{})

  // ---------------------------------------------------------------- lookups

  predicate TsListFree(s: State) { s.irq.IrqIdle? || s.irq.IrqGot? }

  predicate ConnectionFree(s: State) { !s.irq.IrqQueued? }

  /** getTrustletSession: the first listed session with the id. */
  function Find(list: seq<Ptr>, heap: map<Ptr, Session>, sid: Sid): (r: Option<Ptr>)
    ensures r.Some? ==> r.value in list && r.value in heap && heap[r.value].sessionId == sid
    ensures r.None? ==> forall p :: p in list && p in heap ==> heap[p].sessionId != sid
  {
    if list == [] then None
    else if list[0] in heap && heap[list[0]].sessionId == sid then Some(list[0])
    else Find(list[1..], heap, sid)
  }

  /** findSession: the listed session with the id, if the connection owns it. */
  function FindSession(s: State, c: Conn, sid: Sid): (r: Option<Ptr>)
    ensures r.Some? ==> (r.value in s.list && r.value in s.heap
                         && s.heap[r.value].sessionId == sid && s.heap[r.value].owner == Some(c))
  {
    match Find(s.list, s.heap, sid)
    case Some(p) => if s.heap[p].owner == Some(c) then Some(p) else None
    case None => None
  }

  /** The reverse search of MobiCoreDevice::close. */
  function LastOwned(list: seq<Ptr>, heap: map<Ptr, Session>, c: Conn): (r: Option<Ptr>)
    ensures r.Some? ==> r.value in list && r.value in heap && heap[r.value].owner == Some(c)
    ensures r.None? ==> forall p :: p in list && p in heap ==> heap[p].owner != Some(c)
  {
    if list == [] then None
    else
      var last := list[|list| - 1];
      if last in heap && heap[last].owner == Some(c) then Some(last)
      else LastOwned(list[..|list| - 1], heap, c)
  }

  /** The search of handleTaExit. */
  function FirstDead(list: seq<Ptr>, heap: map<Ptr, Session>): (r: Option<Ptr>)
    ensures r.Some? ==> r.value in list && r.value in heap && heap[r.value].state == TaDead
    ensures r.None? ==> forall p :: p in list && p in heap ==> heap[p].state != TaDead
  {
    if list == [] then None
    else if list[0] in heap && heap[list[0]].state == TaDead then Some(list[0])
    else FirstDead(list[1..], heap)
  }

  /** std::list::remove: every occurrence goes. */
  function Remove(list: seq<Ptr>, p: Ptr): (r: seq<Ptr>)
    ensures forall q :: q in r <==> q in list && q != p
  {
    if list == [] then []
    else if list[0] == p then Remove(list[1..], p)
    else [list[0]] + Remove(list[1..], p)
  }

  /** Where the code goes on when closeSession or the TA-exit clean-up of a session is over. */
  function After(who: Caller): Pc {
    match who
    case OnCommand(_) => Free
    case OnDeviceClose(c) => DevScan(c)
    case OnTaExit => TaScan
  }

  /** The connection the holder of mutex_mcp works for. */
  function Serving(pc: Pc): Option<Conn> {
    match pc
    case OpenWait(c, _, _, _, _) => Some(c)
    case DevScan(c) => Some(c)
    case MapWait(c, _, _) => Some(c)
    case UnmapWait(c, _, _) => Some(c)
    case CloseMark(w, _) => CallerConn(w)
    case CloseIssue(w, _, _) => CallerConn(w)
    case CloseWait(w, _, _) => CallerConn(w)
    case CloseCheck(w, _) => CallerConn(w)
    case FreeBuffers(w, _) => CallerConn(w)
    case Unlink(w, _) => CallerConn(w)
    case Delete(w, _) => CallerConn(w)
    case Free => None
    case TaScan => None
  }

  function CallerConn(who: Caller): Option<Conn> {
    if who.OnTaExit? then None else Some(who.c)
  }

  /** The session object the holder of mutex_mcp has a pointer to. */
  function Target(pc: Pc): Option<Ptr> {
    match pc
    case CloseMark(_, p) => Some(p)
    case CloseIssue(_, p, _) => Some(p)
    case CloseWait(_, p, _) => Some(p)
    case CloseCheck(_, p) => Some(p)
    case FreeBuffers(_, p) => Some(p)
    case Unlink(_, p) => Some(p)
    case Delete(_, p) => Some(p)
    case MapWait(_, p, _) => Some(p)
    case UnmapWait(_, p, _) => Some(p)
    case Free => None
    case OpenWait(_, _, _, _, _) => None
    case DevScan(_) => None
    case TaScan => None
  }

  predicate ByTaExit(pc: Pc) {
    pc.TaScan?
    || ((pc.CloseMark? || pc.CloseIssue? || pc.CloseWait? || pc.CloseCheck? || pc.FreeBuffers?
         || pc.Unlink? || pc.Delete?) && pc.who.OnTaExit?)
  }

  /** Blocked in mshNotifyAndWait. */
  predicate Waiting(pc: Pc) { pc.OpenWait? || pc.CloseWait? || pc.MapWait? || pc.UnmapWait? }

  function Lock(o: Option<Handle>): multiset<Handle> {
    if o.Some? then multiset{o.value} else multiset{}
  }

  // ---------------------------------------------------------------- steps

  /** Client threads and the socket server: no MCP involved. */
  datatype ClientStep =
    | Connect
    | OpenDevice(c: Conn)
    | Die(c: Conn)
    | DropNothing(c: Conn)          // dropConnection of a dead client without a device
    | Reap(c: Conn)
    | NqConnect(c: Conn, p: Ptr)

  /** Commands other than closing, under mutex_mcp. */
  datatype CommandStep =
    | KeepLock(c: Conn, h: Handle)  // an error return of OPEN or MAP after lockWsmL2
    | OpenIssue(c: Conn, gp: bool, tci: Option<Handle>, loadLen: nat)
    | OpenDone(at: Ptr)             // the new object may get any free address
    | MapIssue(c: Conn, sid: Sid, h: Handle, len: nat)
    | MapDone
    | UnmapIssue(c: Conn, sid: Sid, h: Handle, len: nat)
    | UnmapDone

  /** closeSession and MobiCoreDevice::close. */
  datatype CloseStep =
    | CloseDevice(c: Conn)          // CLOSE_DEVICE, or dropConnection of a dead client
    | CloseBegin(c: Conn, sid: Sid)
    | ScanDevice
    | Disconnect
    | SendClose
    | CloseDone
    | CheckState

  /** freeSession. */
  datatype FreeStep =
    | PopBuffer(h: Handle)
    | NoBuffers
    | UnlinkSession
    | DeleteSession

  /** The TA-exit thread, handleTaExit. */
  datatype TaStep =
    | TaWake
    | TaLock
    | TaSearch

  /** The S-SIQ thread, handleIrq. */
  datatype IrqStep =
    | IrqTake
    | IrqDispatch
    | IrqDeliver
    | IrqWake

  datatype SwStep =
    | SwStart(sid: Sid)             // the session of an OPEN starts and may send notifications
    | SwAnswer(a: Answer)
    | SwNotify(sid: Sid, payload: int)

  datatype Step =
    | OfClient(client: ClientStep)
    | OfCommand(command: CommandStep)
    | OfClose(close: CloseStep)
    | OfFree(free: FreeStep)
    | OfTa(ta: TaStep)
    | OfIrq(irq: IrqStep)
    | OfSw(world: SwStep)

  predicate Enabled(s: State, step: Step) {
    match step
    case OfClient(x) => CanClient(s, x)
    case OfCommand(x) => CanCommand(s, x)
    case OfClose(x) => CanClose(s, x)
    case OfFree(x) => CanFree(s, x)
    case OfTa(x) => CanTa(s, x)
    case OfIrq(x) => CanIrq(s, x)
    case OfSw(x) => CanSw(s, x)
  }

  function Apply(s: State, step: Step): State
    requires Enabled(s, step)
  {
    match step
    case OfClient(x) => DoClient(s, x)
    case OfCommand(x) => DoCommand(s, x)
    case OfClose(x) => DoClose(s, x)
    case OfFree(x) => DoFree(s, x)
    case OfTa(x) => DoTa(s, x)
    case OfIrq(x) => DoIrq(s, x)
    case OfSw(x) => DoSw(s, x)
  }

  // -- clients

  predicate CanClient(s: State, step: ClientStep) {
    match step
    case Connect => true
    case OpenDevice(c) => MayCommand(s, c) && c !in s.devices
    case Die(c) => c in s.clients && c !in s.dead && Serving(s.pc) != Some(c)
    case DropNothing(c) => c in s.dead && c !in s.devices
    case Reap(c) => c in s.exiting
    // the client library sends NQ_CONNECT before it can close the session, hence owner.Some?
    case NqConnect(c, p) =>
      c in s.clients && c !in s.dead && c !in s.devices && Serving(s.pc) != Some(c)
      && TsListFree(s) && p in s.list && p in s.heap && s.heap[p].owner.Some?
  }

  function DoClient(s: State, step: ClientStep): State
    requires CanClient(s, step)
  {
    match step
    case Connect => s.(clients := s.clients + {s.nextConn}, nextConn := s.nextConn + 1)
    case OpenDevice(c) => s.(devices := s.devices + {c})
    case Die(c) => s.(dead := s.dead + {c})
    case DropNothing(c) => s.(exiting := s.exiting + {c})
    case Reap(c) => s.(clients := s.clients - {c}, dead := s.dead - {c}, exiting := s.exiting - {c})
    // processNqConnect: detach from the client, register, answer and drain, as one step
    case NqConnect(c, p) =>
      s.(clients := s.clients - {c}, heap := s.heap[p := Attached(s.heap[p], c, |s.log|)])
  }

  /** The session after NQ_CONNECT: connection registered, queued notifications written to it. */
  function Attached(session: Session, c: Conn, now: nat): Session {
    session.(nq := Some(c), written := session.written + session.queue, queue := [],
             attachedAt := if session.attachedAt.None? then Some(now) else session.attachedAt)
  }

  // -- open, map, unmap

  /** A client may start a command under mutex_mcp. */
  predicate MayCommand(s: State, c: Conn) {
    s.pc.Free? && c in s.clients && c !in s.dead
  }

  /** The MCP answer has arrived and its semaphore token is there. */
  predicate AnswerReady(s: State) { s.mcpSem > 0 && s.mcp.Response? }

  predicate CanCommand(s: State, step: CommandStep) {
    match step
    case KeepLock(c, _) => MayCommand(s, c) && c in s.devices
    case OpenIssue(c, _, _, _) => MayCommand(s, c) && c in s.devices
    case OpenDone(at) => s.pc.OpenWait? && AnswerReady(s) && at !in s.heap
    case MapIssue(c, sid, _, _) => MayCommand(s, c) && c in s.devices && FindSession(s, c, sid).Some?
    case MapDone => s.pc.MapWait? && AnswerReady(s)
    case UnmapIssue(c, sid, h, len) =>
      MayCommand(s, c) && c in s.devices && FindSession(s, c, sid).Some?
      && var b := s.heap[FindSession(s, c, sid).value].buffers; h in b && b[h] == len
    case UnmapDone => s.pc.UnmapWait? && s.pc.p in s.heap && AnswerReady(s)
  }

  function DoCommand(s: State, step: CommandStep): State
    requires CanCommand(s, step)
  {
    match step
    case KeepLock(_, h) => s.(locks := s.locks + multiset{h}, kept := s.kept + multiset{h})
    case OpenIssue(c, gp, tci, loadLen) =>
      s.(locks := s.locks + Lock(tci), unknown := [], mcp := Request(OpenCmd(gp, tci), None),
         pc := OpenWait(c, gp, tci, loadLen, |s.log|))
    case OpenDone(at) => DoOpenDone(s, at)
    case MapIssue(c, sid, h, len) => DoMapIssue(s, c, FindSession(s, c, sid).value, h, len)
    case MapDone => s.(pc := Free, mcpSem := s.mcpSem - 1)
    case UnmapIssue(c, sid, h, _) =>
      s.(mcp := Request(UnmapCmd(sid, h), None), pc := UnmapWait(c, FindSession(s, c, sid).value, h))
    case UnmapDone => DoUnmapDone(s)
  }

  /** The session object openSession creates. */
  function CreatedSession(s: State): Session
    requires s.pc.OpenWait? && s.mcp.Response? && s.mcp.answer.Opened?
  {
    Session(s.mcp.answer.sid, s.pc.gp, Some(s.pc.c), None, TaRunning, [],
            if s.pc.tci.Some? then map[s.pc.tci.value := s.pc.loadLen] else map[],
            [], s.pc.from, None)
  }

  /** The new session after it was handed the early notifications. */
  function OpenedSession(s: State): Session
    requires s.pc.OpenWait? && s.mcp.Response? && s.mcp.answer.Opened?
  {
    QueueAll(CreatedSession(s), s.unknown)
  }

  // openSession after the MCP answer; creating, listing and handing over early notifications
  // is one step.
  function DoOpenDone(s: State, at: Ptr): State
    requires s.pc.OpenWait? && AnswerReady(s)
  {
    if s.mcp.answer.Opened? then
      s.(pc := Free, mcpSem := s.mcpSem - 1,
         heap := s.heap[at := OpenedSession(s)], list := s.list + [at], unknown := [])
    else s.(pc := Free, mcpSem := s.mcpSem - 1, locks := s.locks - Lock(s.pc.tci))
  }

  function DoMapIssue(s: State, c: Conn, p: Ptr, h: Handle, len: nat): State
    requires p in s.heap
  {
    s.(locks := s.locks + multiset{h}, heap := s.heap[p := WithBuffer(s.heap[p], h, len)],
       mcp := Request(MapCmd(s.heap[p].sessionId, h), None), pc := MapWait(c, p, h),
       kept := if h in s.heap[p].buffers then s.kept + multiset{h} else s.kept)
  }

  function DoUnmapDone(s: State): State
    requires s.pc.UnmapWait? && s.pc.p in s.heap && AnswerReady(s)
  {
    var p, h := s.pc.p, s.pc.h;
    if s.mcp.answer == Ok then
      s.(pc := Free, mcpSem := s.mcpSem - 1,
         heap := s.heap[p := WithoutBuffer(s.heap[p], h)], locks := s.locks - multiset{h})
    else s.(pc := Free, mcpSem := s.mcpSem - 1)
  }

  // -- close

  predicate CanClose(s: State, step: CloseStep) {
    match step
    case CloseDevice(c) => s.pc.Free? && c in s.devices
    case CloseBegin(c, sid) => MayCommand(s, c) && c in s.devices && FindSession(s, c, sid).Some?
    case ScanDevice => s.pc.DevScan? && TsListFree(s)
    case Disconnect => s.pc.CloseMark? && s.pc.p in s.heap && (s.heap[s.pc.p].gp ==> ConnectionFree(s))
    case SendClose => s.pc.CloseIssue? && s.pc.p in s.heap
    case CloseDone => s.pc.CloseWait? && s.pc.p in s.heap && AnswerReady(s)
    case CheckState => s.pc.CloseCheck? && s.pc.p in s.heap
  }

  function DoClose(s: State, step: CloseStep): State
    requires CanClose(s, step)
  {
    match step
    case CloseDevice(c) => s.(pc := DevScan(c))
    case CloseBegin(c, sid) => s.(pc := CloseMark(OnCommand(c), FindSession(s, c, sid).value))
    case ScanDevice =>
      (match LastOwned(s.list, s.heap, s.pc.c)
       case Some(p) => s.(pc := CloseMark(OnDeviceClose(s.pc.c), p))
       case None =>
         s.(pc := Free, devices := s.devices - {s.pc.c},
            exiting := if s.pc.c in s.dead then s.exiting + {s.pc.c} else s.exiting))
    case Disconnect =>
      s.(pc := CloseIssue(s.pc.who, s.pc.p, false),
         heap := s.heap[s.pc.p := Disconnected(s.heap[s.pc.p])])
    case SendClose =>
      s.(mcp := Request(CloseCmd(s.heap[s.pc.p].sessionId), None),
         pc := CloseWait(s.pc.who, s.pc.p, s.pc.again))
    case CloseDone => s.(mcpSem := s.mcpSem - 1, pc := AfterClose(s))
    case CheckState =>
      s.(pc := if s.heap[s.pc.p].state == TaDead then CloseIssue(s.pc.who, s.pc.p, true)
               else After(s.pc.who))
  }

  /** closeSession's block under mutex_connection, which only GP sessions go through. */
  function Disconnected(session: Session): Session {
    if session.gp then session.(owner := None, nq := None, state := CloseSend) else session
  }

  /** What follows the answer to a close command. */
  function AfterClose(s: State): Pc
    requires s.pc.CloseWait? && s.pc.p in s.heap && s.mcp.Response?
  {
    if s.mcp.answer == Ok then FreeBuffers(s.pc.who, s.pc.p)
    else if s.pc.who.OnTaExit? then TaScan
    else if s.heap[s.pc.p].gp && s.mcp.answer == TaskFailed && !s.pc.again
      then CloseCheck(s.pc.who, s.pc.p)
    else After(s.pc.who)
  }

  // -- free

  predicate CanFree(s: State, step: FreeStep) {
    match step
    case PopBuffer(h) => s.pc.FreeBuffers? && s.pc.p in s.heap && h in s.heap[s.pc.p].buffers
    case NoBuffers => s.pc.FreeBuffers? && s.pc.p in s.heap && s.heap[s.pc.p].buffers == map[]
    case UnlinkSession => s.pc.Unlink? && TsListFree(s)
    case DeleteSession => s.pc.Delete?
  }

  function DoFree(s: State, step: FreeStep): State
    requires CanFree(s, step)
  {
    match step
    case PopBuffer(h) =>
      s.(heap := s.heap[s.pc.p := WithoutBuffer(s.heap[s.pc.p], h)], locks := s.locks - multiset{h})
    case NoBuffers => s.(pc := Unlink(s.pc.who, s.pc.p))
    case UnlinkSession => s.(list := Remove(s.list, s.pc.p), pc := Delete(s.pc.who, s.pc.p))
    case DeleteSession => s.(heap := s.heap - {s.pc.p}, pc := After(s.pc.who))
  }

  // -- the TA-exit thread

  predicate CanTa(s: State, step: TaStep) {
    match step
    case TaWake => s.ta.Asleep? && s.tokens > 0
    case TaLock => s.ta.Awake? && s.pc.Free?
    case TaSearch => s.pc.TaScan? && TsListFree(s)
  }

  function DoTa(s: State, step: TaStep): State
    requires CanTa(s, step)
  {
    match step
    case TaWake => s.(tokens := s.tokens - 1, ta := Awake)
    case TaLock => s.(ta := InMcp, pc := TaScan)
    case TaSearch =>
      (match FirstDead(s.list, s.heap)
       case Some(p) => s.(pc := CloseIssue(OnTaExit, p, false))
       case None => s.(pc := Free, ta := Asleep))
  }

  // -- the IRQ thread

  predicate CanIrq(s: State, step: IrqStep) {
    match step
    case IrqTake => s.irq.IrqIdle? && s.ring != []
    case IrqDispatch => s.irq.IrqGot?
    case IrqDeliver => s.irq.IrqFound? && s.irq.p in s.heap
    case IrqWake => s.irq.IrqQueued? && s.irq.p in s.heap
  }

  function DoIrq(s: State, step: IrqStep): State
    requires CanIrq(s, step)
  {
    match step
    case IrqTake => s.(irq := IrqGot(s.ring[0]), ring := s.ring[1..])
    case IrqDispatch => DoIrqDispatch(s)
    case IrqDeliver => DoIrqDeliver(s)
    case IrqWake =>
      s.(tokens := if s.heap[s.irq.p].owner.None? then s.tokens + 1 else s.tokens, irq := IrqIdle)
  }

  function DoIrqDispatch(s: State): State
    requires s.irq.IrqGot?
  {
    var n := s.irq.n;
    if n.sessionId == SID_MCP then s.(mcpSem := s.mcpSem + 1, irq := IrqIdle)
    else
      match Find(s.list, s.heap, n.sessionId)
      case Some(p) => s.(irq := IrqFound(n, p))
      case None => s.(unknown := s.unknown + [n], log := s.log + [n], irq := IrqIdle)
  }

  function DoIrqDeliver(s: State): State
    requires s.irq.IrqFound? && s.irq.p in s.heap
  {
    var n, p := s.irq.n, s.irq.p;
    s.(heap := s.heap[p := Delivered(s.heap[p], n)], log := s.log + [n],
       irq := if s.heap[p].nq.Some? then IrqIdle else IrqQueued(p))
  }

  /** Forwarded when there is a notification connection, queued otherwise. */
  function Delivered(session: Session, n: Notification): Session {
    if session.nq.Some? then session.(written := session.written + [n])
    else QueueNotification(session, n)
  }

  // -- the secure world

  /** The id of the session an OPEN is about, once the secure world has started it. */
  function Newborn(s: State): Option<Sid> {
    if !s.pc.OpenWait? then None
    else
      match s.mcp
      case Blank => None
      case Request(_, started) => started
      case Response(a) => if a.Opened? then Some(a.sid) else None
  }

  /**
   * What is assumed of the secure world: it answers with a matching response, starts a session
   * under an id that is not in use (SwStart below) and then reports it opened, closes a GP session
   * whose exit it has announced, maps and unmaps only in running sessions, and sends notifications
   * only for running sessions (SwNotify below).  Everything else it may refuse.
   */
  predicate Legitimate(s: State, cmd: Command, started: Option<Sid>, a: Answer) {
    match cmd
    case OpenCmd(_, _) => a == if started.Some? then Opened(started.value) else Refused
    case CloseCmd(sid) =>
      if sid in s.sw then a == Ok || (!s.sw[sid].exited && (a == TaskFailed || a == Refused))
      else a == Refused
    case MapCmd(sid, _) => a == Refused || (a == Ok && sid in s.sw)
    case UnmapCmd(sid, h) => a == Refused || (a == Ok && sid in s.sw && s.sw[sid].maps[h] > 0)
  }

  predicate CanSw(s: State, step: SwStep) {
    match step
    case SwStart(sid) =>
      s.mcp.Request? && s.mcp.cmd.OpenCmd? && s.mcp.started.None? && sid != SID_MCP && sid !in s.sw
    case SwAnswer(a) => s.mcp.Request? && Legitimate(s, s.mcp.cmd, s.mcp.started, a)
    case SwNotify(sid, _) => sid in s.sw
  }

  function DoSw(s: State, step: SwStep): State
    requires CanSw(s, step)
  {
    match step
    case SwStart(sid) =>
      s.(mcp := s.mcp.(started := Some(sid)),
         sw := s.sw[sid := SwSession(s.mcp.cmd.gp, false, Lock(s.mcp.cmd.tci))])
    case SwAnswer(a) =>
      s.(mcp := Response(a), ring := s.ring + [Notification(SID_MCP, 0)], sw := SwAfter(s, a))
    case SwNotify(sid, payload) =>
      s.(ring := s.ring + [Notification(sid, payload)],
         sw := s.sw[sid := s.sw[sid].(exited := s.sw[sid].exited || (s.sw[sid].gp && payload != 0))])
  }

  /** The secure world's sessions after it has carried out a command. */
  function SwAfter(s: State, a: Answer): map<Sid, SwSession>
    requires CanSw(s, SwAnswer(a))
  {
    if a == Refused || a == TaskFailed then s.sw
    else
      match s.mcp.cmd
      case OpenCmd(_, _) => s.sw
      case CloseCmd(sid) => s.sw - {sid}
      case MapCmd(sid, h) => s.sw[sid := s.sw[sid].(maps := s.sw[sid].maps + multiset{h})]
      case UnmapCmd(sid, h) => s.sw[sid := s.sw[sid].(maps := s.sw[sid].maps - multiset{h})]
  }

  // ---------------------------------------------------------------- runs

  /** A sequence of steps that can be taken one after the other. */
  ghost predicate Runs(s: State, steps: seq<Step>)
    decreases |steps|
  {
    steps == [] || (Enabled(s, steps[0]) && Runs(Apply(s, steps[0]), steps[1..]))
  }

  ghost function RunFrom(s: State, steps: seq<Step>): State
    requires Runs(s, steps)
    decreases |steps|
  {
    if steps == [] then s else RunFrom(Apply(s, steps[0]), steps[1..])
  }

  ghost predicate Reachable(s: State) {
    exists steps :: Runs(Init, steps) && RunFrom(Init, steps) == s
  }
}
