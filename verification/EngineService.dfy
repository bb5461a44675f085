/**
 * What can be asked for is done: in every reachable state each command, each clean-up and each
 * wake-up can start as soon as what it needs is free.
 */
module EngineService {
  import opened Common
  import opened SessionSpec
  import opened Engine
  import opened EngineLifetime
  import opened EngineLookups
  import opened EngineOwners
  import opened EngineStream
  import opened EngineTheorems

  lemma Facts(s: State)
    requires Reachable(s)
    ensures Lifetime(s) && ClientOwners(s) && Ids(s)
  {
    InvReachable(s);
  }

  lemma OwnedIsFound(s: State, c: Conn, p: Ptr)
    requires Ids(s) && p in s.list && p in s.heap && s.heap[p].owner == Some(c)
    ensures FindSession(s, c, s.heap[p].sessionId) == Some(p)
  {
    var q := Find(s.list, s.heap, s.heap[p].sessionId);
    assert q.Some? ==> q.value == p;
  }

  /** While mutex_mcp is free, a living client can open its device, and then open sessions and close it. */
  lemma ClientCommandsStart(s: State, c: Conn, gp: bool, tci: Option<Handle>, len: nat)
    requires Reachable(s) && s.pc.Free? && c in s.clients && c !in s.dead
    ensures c !in s.devices <==> CanClient(s, OpenDevice(c))
    ensures c in s.devices <==> CanCommand(s, OpenIssue(c, gp, tci, len))
    ensures c in s.devices <==> CanClose(s, CloseDevice(c))
  {
    Facts(s);
  }

  /** For each session it owns it can close it, map any buffer, and unmap exactly what has a record. */
  lemma SessionCommandsStart(s: State, c: Conn, p: Ptr, h: Handle, len: nat)
    requires Reachable(s) && s.pc.Free? && c in s.clients && c !in s.dead
    requires p in s.list && p in s.heap && s.heap[p].owner == Some(c)
    ensures CanClose(s, CloseBegin(c, s.heap[p].sessionId))
    ensures CanCommand(s, MapIssue(c, s.heap[p].sessionId, h, len))
    ensures CanCommand(s, UnmapIssue(c, s.heap[p].sessionId, h, len)) <==>
      h in s.heap[p].buffers && s.heap[p].buffers[h] == len
  {
    Facts(s);
    OwnedIsFound(s, c, p);
  }

  /** Nobody else can do that to the session. */
  lemma OthersAreRefused(s: State, c: Conn, p: Ptr, h: Handle, len: nat)
    requires Reachable(s) && p in s.list && p in s.heap && s.heap[p].owner != Some(c)
    ensures !CanClose(s, CloseBegin(c, s.heap[p].sessionId))
    ensures !CanCommand(s, MapIssue(c, s.heap[p].sessionId, h, len))
    ensures !CanCommand(s, UnmapIssue(c, s.heap[p].sessionId, h, len))
  {
    Facts(s);
  }

  /** A connection without a device can become the notification connection of any session with a client. */
  lemma NqConnectStarts(s: State, c: Conn, p: Ptr)
    requires Reachable(s) && c in s.clients && c !in s.dead && c !in s.devices
    requires p in s.list && p in s.heap
    ensures TsListFree(s) && s.heap[p].owner.Some? <==> CanClient(s, NqConnect(c, p))
  {
    Facts(s);
  }

  /** A client can die whenever it is not being served; then its device is closed, and it is reaped. */
  lemma DeadAreCleanedUp(s: State, c: Conn)
    requires Reachable(s) && c in s.clients
    ensures c !in s.dead && Serving(s.pc) != Some(c) ==> CanClient(s, Die(c))
    ensures c in s.dead && c in s.devices && s.pc.Free? ==> CanClose(s, CloseDevice(c))
    ensures c in s.dead && c !in s.devices ==>
      CanClient(s, DropNothing(c)) && CanClient(DoClient(s, DropNothing(c)), Reap(c))
    ensures CanClient(s, Reap(c)) ==>
      var t := DoClient(s, Reap(c)); c !in t.clients && c !in t.dead && c !in t.exiting
  {
    Facts(s);
  }

  /** When the search finds nothing more, the device is closed, and a dead client can be reaped. */
  lemma DeviceCloseEnds(s: State)
    requires Reachable(s) && CanClose(s, ScanDevice)
    requires forall p :: p in s.heap ==> s.heap[p].owner != Some(s.pc.c)
    ensures var c, t := s.pc.c, DoClose(s, ScanDevice);
      t.pc.Free? && c !in t.devices && (c in t.dead ==> CanClient(t, Reap(c)))
  {
    Facts(s);
  }

  /** A token wakes the TA-exit thread, and awake it gets mutex_mcp as soon as that is free. */
  lemma TaExitStarts(s: State)
    requires Reachable(s)
    ensures s.ta.Asleep? && s.tokens > 0 <==> CanTa(s, TaWake)
    ensures s.ta.Awake? && s.pc.Free? <==> CanTa(s, TaLock)
    ensures s.ta.InMcp? ==> !s.pc.Free?
  {
    Facts(s);
  }
}
