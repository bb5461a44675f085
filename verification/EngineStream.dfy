/**
 * The notification stream between the secure world and the sessions.  Because it is first-in
 * first-out and the MCP answers travel in it too, no notification outlives its session, and the
 * early-notification queue only ever holds notifications of the session being opened.
 */
module EngineStream {
  import opened Common
  import opened SessionSpec
  import opened Engine
  import opened EngineLifetime

  /** Notifications sent by the secure world and not yet handled by the IRQ thread. */
  function Stream(s: State): seq<Notification> {
    match s.irq
    case IrqGot(n) => [n] + s.ring
    case IrqFound(n, _) => [n] + s.ring
    case IrqQueued(_) => s.ring
    case IrqIdle => s.ring
  }

  ghost predicate AllLive(s: State, st: seq<Notification>) {
    forall i :: 0 <= i < |st| ==> st[i].sessionId in s.sw
  }

  /** The secure world has closed this session, and the daemon has not finished with it. */
  predicate Gone(s: State, p: Ptr) {
    (s.pc.CloseWait? && s.pc.p == p && s.mcp == Response(Ok))
    || ((s.pc.FreeBuffers? || s.pc.Unlink? || s.pc.Delete?) && s.pc.p == p)
  }

  /** The id whose close answer is still on its way. */
  predicate JustClosed(s: State, sid: Sid) {
    s.pc.CloseWait? && s.mcp == Response(Ok) && s.pc.p in s.heap && s.heap[s.pc.p].sessionId == sid
  }

  /** The MCP answer is the k-th notification; only what precedes it may be of a closed session. */
  ghost predicate AnswerAt(s: State, st: seq<Notification>, k: int) {
    && 0 <= k < |st|
    && st[k].sessionId == SID_MCP
    && (forall i :: k < i < |st| ==> st[i].sessionId in s.sw)
    && (forall i :: 0 <= i < k ==> st[i].sessionId in s.sw || JustClosed(s, st[i].sessionId))
  }

  predicate Matches(s: State, cmd: Command) {
    match s.pc
    case OpenWait(_, gp, tci, _, _) => cmd == OpenCmd(gp, tci)
    case CloseWait(_, p, _) => p in s.heap && cmd == CloseCmd(s.heap[p].sessionId)
    case MapWait(_, p, h) => p in s.heap && cmd == MapCmd(s.heap[p].sessionId, h)
    case UnmapWait(_, p, h) => p in s.heap && cmd == UnmapCmd(s.heap[p].sessionId, h)
    case _ => false
  }

  predicate Answers(pc: Pc, a: Answer) {
    if pc.OpenWait? then a.Opened? || a == Refused
    else if pc.CloseWait? then a == Ok || a == TaskFailed || a == Refused
    else a == Ok || a == Refused
  }

  /** Exactly one of: command pending, answer in the stream, answer token in the semaphore. */
  ghost predicate Pipeline(s: State) {
    if !Waiting(s.pc) then s.mcpSem == 0 && !s.mcp.Request? && AllLive(s, Stream(s))
    else
      match s.mcp
      case Blank => false
      case Request(cmd, started) =>
        s.mcpSem == 0 && AllLive(s, Stream(s)) && Matches(s, cmd) && (started.Some? ==> s.pc.OpenWait?)
      case Response(a) =>
        Answers(s.pc, a)
        && ((s.mcpSem == 1 && AllLive(s, Stream(s)))
            || (s.mcpSem == 0 && exists k :: AnswerAt(s, Stream(s), k)))
  }

  ghost predicate Ids(s: State) {
    && SID_MCP !in s.sw
    && (forall p :: p in s.heap ==> s.heap[p].sessionId != SID_MCP)
    && (forall p, q :: p in s.heap && q in s.heap && p < q ==> s.heap[p].sessionId != s.heap[q].sessionId)
    && (s.irq.IrqFound? ==> s.irq.p in s.heap && s.heap[s.irq.p].sessionId == s.irq.n.sessionId)
  }

  predicate Opening(s: State, sid: Sid) { Newborn(s) == Some(sid) }

  ghost predicate Listed(s: State, sid: Sid) {
    exists p :: p in s.list && p in s.heap && s.heap[p].sessionId == sid
  }

  /** The daemon's list and the secure world's sessions differ only by the command in progress. */
  ghost predicate Registered(s: State) {
    && (forall p :: p in s.heap ==> (s.heap[p].sessionId in s.sw <==> !Gone(s, p)))
    && (forall sid :: sid in s.sw ==> Listed(s, sid) || Opening(s, sid))
    && (Newborn(s).Some? ==>
          Newborn(s).value in s.sw && forall p :: p in s.heap ==> s.heap[p].sessionId != Newborn(s).value)
  }

  /** Early notifications belong to the session being opened, so the drain need not look. */
  ghost predicate Early(s: State) {
    && (s.unknown != [] ==> Newborn(s).Some?)
    && (forall n :: n in s.unknown ==> Opening(s, n.sessionId))
  }

  ghost predicate Flow(s: State) {
    Ids(s) && Pipeline(s) && Registered(s) && Early(s)
  }

  // ---------------------------------------------------------------- steps that leave the flow alone

  /** Same objects with the same ids, same list, same secure-world sessions. */
  ghost predicate SameObjects(s: State, t: State) {
    && t.heap.Keys == s.heap.Keys
    && (forall p :: p in s.heap ==> t.heap[p].sessionId == s.heap[p].sessionId)
    && t.list == s.list && t.sw == s.sw
  }

  ghost predicate SameSessions(s: State, t: State) {
    && SameObjects(s, t)
    && (t.irq.IrqFound? ==> t.irq == s.irq)
    && Stream(t) == Stream(s)
  }

  ghost predicate SameGone(s: State, t: State) {
    forall p :: p in s.heap ==> (Gone(s, p) <==> Gone(t, p))
  }

  /** The step neither starts nor finishes an MCP command. */
  lemma FlowAlone(s: State, t: State)
    requires Flow(s) && SameSessions(s, t)
    requires t.mcp == s.mcp && t.mcpSem == s.mcpSem && t.unknown == s.unknown
    requires t.pc == s.pc || (!Waiting(s.pc) && !Waiting(t.pc) && SameGone(s, t))
    ensures Flow(t)
  {
    if t.pc == s.pc && Waiting(s.pc) && s.mcp.Response? && s.mcpSem == 0 {
      var k :| AnswerAt(s, Stream(s), k);
      assert AnswerAt(t, Stream(t), k);
    }
    RegisteredAlone(s, t);
  }

  lemma RegisteredAlone(s: State, t: State)
    requires Registered(s) && SameObjects(s, t)
    requires t.mcp == s.mcp || (!Waiting(s.pc) && t.mcp.Request?)
    requires Newborn(t) == Newborn(s) && (t.pc == s.pc || SameGone(s, t))
    ensures Registered(t)
  {
    forall sid | sid in t.sw
      ensures Listed(t, sid) || Opening(t, sid)
    {
      if Listed(s, sid) {
        var p :| p in s.list && p in s.heap && s.heap[p].sessionId == sid;
        assert p in t.list && p in t.heap && t.heap[p].sessionId == sid;
      }
    }
  }

  /** The step writes a command to the MCP buffer and starts waiting. */
  lemma FlowIssue(s: State, t: State)
    requires Flow(s) && SameSessions(s, t)
    requires !Waiting(s.pc) && Waiting(t.pc) && t.mcpSem == s.mcpSem
    requires !s.pc.FreeBuffers? && !s.pc.Unlink? && !s.pc.Delete?
    requires t.mcp.Request? && Matches(t, t.mcp.cmd) && t.mcp.started.None? && t.unknown == []
    ensures Flow(t)
  {
    RegisteredAlone(s, t);
  }

  lemma IdsAlone(s: State, t: State)
    requires Ids(s) && t.sw == s.sw
    requires t.heap.Keys <= s.heap.Keys
    requires forall p :: p in t.heap ==> t.heap[p].sessionId == s.heap[p].sessionId
    requires t.irq.IrqFound? ==> t.irq.p in t.heap && t.heap[t.irq.p].sessionId == t.irq.n.sessionId
    ensures Ids(t)
  {}

  /** The step takes the answer of any command but a successful open. */
  lemma FlowDone(s: State, t: State)
    requires Flow(s) && SameSessions(s, t) && SameGone(s, t)
    requires Waiting(s.pc) && AnswerReady(s) && !s.mcp.answer.Opened?
    requires !Waiting(t.pc) && t.mcpSem == s.mcpSem - 1 && t.mcp == s.mcp && t.unknown == s.unknown
    ensures Flow(t)
  {
    RegisteredAlone(s, t);
  }

  // ---------------------------------------------------------------- steps that move the flow

  lemma FlowOpened(s: State, at: Ptr)
    requires Lifetime(s) && Flow(s) && s.pc.OpenWait? && AnswerReady(s) && s.mcp.answer.Opened? && at !in s.heap
    ensures Flow(DoOpenDone(s, at))
  {
    assert at !in s.list;
    assert OpenedSession(s).sessionId == s.mcp.answer.sid;
    FlowAdded(s, at, OpenedSession(s));
  }

  function Added(s: State, at: Ptr, x: Session): State
    requires s.mcpSem > 0
  {
    s.(pc := Free, mcpSem := s.mcpSem - 1, heap := s.heap[at := x],
       list := s.list + [at], unknown := [])
  }

  lemma FlowAdded(s: State, at: Ptr, x: Session)
    requires Flow(s) && s.pc.OpenWait? && AnswerReady(s) && s.mcp.answer.Opened?
    requires at !in s.heap && at !in s.list && x.sessionId == s.mcp.answer.sid
    ensures Flow(Added(s, at, x))
  {
    assert Registered(Added(s, at, x)) by { RegisteredAdded(s, at, x); }
  }

  lemma RegisteredAdded(s: State, at: Ptr, x: Session)
    requires Registered(s) && s.pc.OpenWait? && AnswerReady(s) && s.mcp.answer.Opened?
    requires at !in s.heap && at !in s.list && x.sessionId == s.mcp.answer.sid
    ensures Registered(Added(s, at, x))
  {
    var t := Added(s, at, x);
    forall sid | sid in t.sw ensures Listed(t, sid)
    {
      if Listed(s, sid) {
        var p :| p in s.list && p in s.heap && s.heap[p].sessionId == sid;
        assert p in t.list && p in t.heap && t.heap[p].sessionId == sid;
      } else {
        assert at in t.list && t.heap[at].sessionId == sid;
      }
    }
  }

  lemma FlowUnlink(s: State)
    requires Lifetime(s) && Flow(s) && CanFree(s, UnlinkSession)
    ensures Flow(DoFree(s, UnlinkSession))
  {
    var t := DoFree(s, UnlinkSession);
    forall sid | sid in t.sw ensures Listed(t, sid)
    {
      var p :| p in s.list && p in s.heap && s.heap[p].sessionId == sid;
      assert p in t.list && p in t.heap && t.heap[p].sessionId == sid;
    }
  }

  lemma FlowDelete(s: State)
    requires Lifetime(s) && Flow(s) && CanFree(s, DeleteSession)
    ensures Flow(DoFree(s, DeleteSession))
  {
    var t := DoFree(s, DeleteSession);
    IdsAlone(s, t);
    assert Registered(t) by { RegisteredDelete(s); }
  }

  lemma RegisteredDelete(s: State)
    requires Registered(s) && CanFree(s, DeleteSession) && s.pc.p !in s.list
    ensures Registered(DoFree(s, DeleteSession))
  {
    var t := DoFree(s, DeleteSession);
    forall sid | sid in t.sw ensures Listed(t, sid)
    {
      var p :| p in s.list && p in s.heap && s.heap[p].sessionId == sid;
      assert p in t.list && p in t.heap && t.heap[p].sessionId == sid;
    }
  }

  /** The first notification of the stream leaves it. */
  lemma PipelineNext(s: State, t: State)
    requires Pipeline(s) && SID_MCP !in s.sw
    requires forall p :: p in s.heap ==> s.heap[p].sessionId != SID_MCP
    requires Stream(s) != [] && Stream(t) == Stream(s)[1..]
    requires t.sw == s.sw && t.mcp == s.mcp && t.pc == s.pc && t.heap.Keys == s.heap.Keys
    requires forall p :: p in s.heap ==> t.heap[p].sessionId == s.heap[p].sessionId
    requires t.mcpSem == s.mcpSem + if Stream(s)[0].sessionId == SID_MCP then 1 else 0
    ensures Pipeline(t)
  {
    var st := Stream(s);
    assert st[0].sessionId == st[0].sessionId;
    if Waiting(s.pc) && s.mcp.Response? && s.mcpSem == 0 {
      var k :| AnswerAt(s, st, k);
      AnswerMoves(s, t, k);
    }
  }

  /** The IRQ thread has finished with the notification in its hands. */
  lemma PipelineTaken(s: State, t: State)
    requires Pipeline(s) && Ids(s)
    requires s.irq.IrqGot? || s.irq.IrqFound?
    requires t.irq.IrqIdle? || t.irq.IrqQueued?
    requires t.ring == s.ring && t.sw == s.sw && t.mcp == s.mcp && t.pc == s.pc && t.heap.Keys == s.heap.Keys
    requires forall p :: p in s.heap ==> t.heap[p].sessionId == s.heap[p].sessionId
    requires t.mcpSem == s.mcpSem + if s.irq.n.sessionId == SID_MCP then 1 else 0
    ensures Pipeline(t)
  {
    assert Stream(s) == [s.irq.n] + s.ring;
    assert Stream(t) == Stream(s)[1..];
    PipelineNext(s, t);
  }

  lemma AnswerMoves(s: State, t: State, k: int)
    requires Waiting(s.pc) && s.mcp.Response? && AnswerAt(s, Stream(s), k) && SID_MCP !in s.sw
    requires forall p :: p in s.heap ==> s.heap[p].sessionId != SID_MCP
    requires Stream(t) == Stream(s)[1..]
    requires t.sw == s.sw && t.mcp == s.mcp && t.pc == s.pc && t.heap.Keys == s.heap.Keys
    requires forall p :: p in s.heap ==> t.heap[p].sessionId == s.heap[p].sessionId
    ensures k == 0 <==> Stream(s)[0].sessionId == SID_MCP
    ensures k > 0 ==> AnswerAt(t, Stream(t), k - 1)
    ensures k == 0 ==> AllLive(t, Stream(t))
  {
    var st := Stream(s);
    forall i | 0 <= i < |Stream(t)| ensures Stream(t)[i] == st[i + 1] {}
    if k > 0 {
      assert st[0].sessionId in s.sw || JustClosed(s, st[0].sessionId);
      forall i | k - 1 < i < |Stream(t)| ensures Stream(t)[i].sessionId in t.sw { assert st[i + 1].sessionId in s.sw; }
      forall i | 0 <= i < k - 1
        ensures Stream(t)[i].sessionId in t.sw || JustClosed(t, Stream(t)[i].sessionId)
      { assert st[i + 1].sessionId in s.sw || JustClosed(s, st[i + 1].sessionId); }
    }
  }

  /** The first notification of the stream: the MCP answer, or of a session not closed or just closed. */
  lemma FirstOfStream(s: State)
    requires Flow(s) && Stream(s) != []
    ensures var sid := Stream(s)[0].sessionId;
      sid == SID_MCP || sid in s.sw || JustClosed(s, sid)
  {
    assert Stream(s)[0] == Stream(s)[0];
    if Waiting(s.pc) && s.mcp.Response? && s.mcpSem == 0 {
      var k :| AnswerAt(s, Stream(s), k);
    }
  }

  /** A notification the list does not know is for the session being opened. */
  lemma UnknownIsOpening(s: State)
    requires Lifetime(s) && Flow(s) && s.irq.IrqGot? && s.irq.n.sessionId != SID_MCP
    requires Find(s.list, s.heap, s.irq.n.sessionId).None?
    ensures Opening(s, s.irq.n.sessionId)
  {
    var sid := s.irq.n.sessionId;
    assert Stream(s)[0] == s.irq.n;
    FirstOfStream(s);
    assert !JustClosed(s, sid);
    assert !Listed(s, sid);
  }

  lemma FlowDispatch(s: State)
    requires Lifetime(s) && Flow(s) && s.irq.IrqGot?
    ensures Flow(DoIrqDispatch(s))
  {
    var n := s.irq.n;
    if n.sessionId == SID_MCP {
      FlowHandled(s, s.(mcpSem := s.mcpSem + 1, irq := IrqIdle));
    } else {
      match Find(s.list, s.heap, n.sessionId)
      case Some(p) => FlowDispatchFound(s, p);
      case None =>
        UnknownIsOpening(s);
        FlowHandled(s, s.(unknown := s.unknown + [n], log := s.log + [n], irq := IrqIdle));
    }
  }

  lemma FlowDispatchFound(s: State, p: Ptr)
    requires Flow(s) && s.irq.IrqGot? && p in s.heap && s.heap[p].sessionId == s.irq.n.sessionId
    ensures Flow(s.(irq := IrqFound(s.irq.n, p)))
  {
    var t := s.(irq := IrqFound(s.irq.n, p));
    IdsAlone(s, t);
    FlowFound(s, t);
  }

  lemma FlowHandled(s: State, t: State)
    requires Flow(s) && s.irq.IrqGot? && t.irq.IrqIdle?
    requires t == s.(irq := t.irq, mcpSem := t.mcpSem, unknown := t.unknown, log := t.log)
    requires t.mcpSem == s.mcpSem + if s.irq.n.sessionId == SID_MCP then 1 else 0
    requires t.unknown == s.unknown || (t.unknown == s.unknown + [s.irq.n] && Opening(s, s.irq.n.sessionId))
    ensures Flow(t)
  {
    IdsAlone(s, t);
    FlowTaken(s, t);
  }

  lemma FlowTaken(s: State, t: State)
    requires Flow(s) && s.irq.IrqGot? && t.irq.IrqIdle?
    requires t == s.(irq := t.irq, mcpSem := t.mcpSem, unknown := t.unknown, log := t.log)
    requires t.mcpSem == s.mcpSem + if s.irq.n.sessionId == SID_MCP then 1 else 0
    ensures Pipeline(t) && Registered(t)
  {
    PipelineTaken(s, t);
    RegisteredAlone(s, t);
  }

  lemma FlowFound(s: State, t: State)
    requires Flow(s) && s.irq.IrqGot? && t.irq.IrqFound? && t == s.(irq := t.irq) && t.irq.n == s.irq.n
    ensures Pipeline(t) && Registered(t)
  {
    if Waiting(s.pc) && s.mcp.Response? && s.mcpSem == 0 {
      var k :| AnswerAt(s, Stream(s), k);
      assert AnswerAt(t, Stream(t), k);
    }
  }

  lemma FlowDeliver(s: State)
    requires Flow(s) && s.irq.IrqFound? && s.irq.p in s.heap
    ensures Flow(DoIrqDeliver(s))
  {
    var t := DoIrqDeliver(s);
    var x := Delivered(s.heap[s.irq.p], s.irq.n);
    assert x.sessionId == s.heap[s.irq.p].sessionId;
    FlowDelivered(s, x, t);
  }

  lemma FlowDelivered(s: State, x: Session, t: State)
    requires Flow(s) && s.irq.IrqFound? && s.irq.p in s.heap
    requires x.sessionId == s.heap[s.irq.p].sessionId
    requires t == s.(heap := s.heap[s.irq.p := x], log := t.log, irq := t.irq) && (t.irq.IrqIdle? || t.irq.IrqQueued?)
    ensures Flow(t)
  {
    assert Ids(t) by { IdsAlone(s, t); }
    assert Pipeline(t) by { PipelineTaken(s, t); }
    assert Registered(t) by { RegisteredAlone(s, t); }
  }

  /** The new session has no object and no notification on its way yet. */
  lemma FlowStart(s: State, sid: Sid)
    requires Flow(s) && CanSw(s, SwStart(sid))
    ensures Flow(DoSw(s, SwStart(sid)))
  {
    var t := DoSw(s, SwStart(sid));
    assert s.unknown == [];
    assert Matches(s, s.mcp.cmd) && Stream(t) == Stream(s);
    forall k | k in t.sw
      ensures Listed(t, k) || Opening(t, k)
    {
      if Listed(s, k) {
        var p :| p in s.list && p in s.heap && s.heap[p].sessionId == k;
        assert p in t.list && p in t.heap && t.heap[p].sessionId == k;
      }
    }
  }

  lemma FlowAnswer(s: State, a: Answer)
    requires Flow(s) && CanSw(s, SwAnswer(a))
    ensures Flow(DoSw(s, SwAnswer(a)))
  {
    var t := DoSw(s, SwAnswer(a));
    PipelineAnswer(s, a);
    RegisteredAnswer(s, a);
  }

  lemma PipelineAnswer(s: State, a: Answer)
    requires Flow(s) && CanSw(s, SwAnswer(a))
    ensures Pipeline(DoSw(s, SwAnswer(a)))
  {
    var t := DoSw(s, SwAnswer(a));
    assert Stream(t) == Stream(s) + [Notification(SID_MCP, 0)];
    assert AnswerAt(t, Stream(t), |Stream(s)|);
  }

  lemma RegisteredAnswer(s: State, a: Answer)
    requires Flow(s) && CanSw(s, SwAnswer(a))
    ensures Registered(DoSw(s, SwAnswer(a)))
  {
    var t := DoSw(s, SwAnswer(a));
    forall sid | sid in t.sw
      ensures Listed(t, sid) || Opening(t, sid)
    {
      if Listed(s, sid) {
        var p :| p in s.list && p in s.heap && s.heap[p].sessionId == sid;
        assert p in t.list && p in t.heap && t.heap[p].sessionId == sid;
      }
    }
  }

  lemma FlowNotify(s: State, sid: Sid, payload: int)
    requires Flow(s) && sid in s.sw
    ensures Flow(DoSw(s, SwNotify(sid, payload)))
  {
    var t := DoSw(s, SwNotify(sid, payload));
    PipelineNotify(s, sid, payload);
    RegisteredAlone(s, t.(ring := s.ring, sw := s.sw));
  }

  lemma PipelineNotify(s: State, sid: Sid, payload: int)
    requires Pipeline(s) && sid in s.sw
    ensures Pipeline(DoSw(s, SwNotify(sid, payload)))
  {
    var t := DoSw(s, SwNotify(sid, payload));
    assert Stream(t) == Stream(s) + [Notification(sid, payload)];
    if Waiting(s.pc) && s.mcp.Response? && s.mcpSem == 0 {
      var k :| AnswerAt(s, Stream(s), k);
      assert AnswerAt(t, Stream(t), k);
    }
  }

  // ---------------------------------------------------------------- all steps

  lemma FlowOpenDone(s: State, at: Ptr)
    requires Lifetime(s) && Flow(s) && s.pc.OpenWait? && AnswerReady(s) && at !in s.heap
    ensures Flow(DoOpenDone(s, at))
  {
    if s.mcp.answer.Opened? { FlowOpened(s, at); } else { FlowDone(s, DoOpenDone(s, at)); }
  }

  lemma CommandQuiet(s: State, step: CommandStep)
    requires CanCommand(s, step) && !step.OpenDone?
    ensures SameSessions(s, DoCommand(s, step)) && SameGone(s, DoCommand(s, step))
  {
    match step
    case MapIssue(c, sid, h, len) => MapQuiet(s, c, FindSession(s, c, sid).value, h, len);
    case UnmapDone => UnmapQuiet(s);
    case _ =>
  }

  lemma MapQuiet(s: State, c: Conn, p: Ptr, h: Handle, len: nat)
    requires p in s.heap && s.pc.Free?
    ensures SameSessions(s, DoMapIssue(s, c, p, h, len)) && SameGone(s, DoMapIssue(s, c, p, h, len))
  {}

  lemma UnmapQuiet(s: State)
    requires s.pc.UnmapWait? && s.pc.p in s.heap && AnswerReady(s)
    ensures SameSessions(s, DoUnmapDone(s)) && SameGone(s, DoUnmapDone(s))
  {}

  lemma FlowCommand(s: State, step: CommandStep)
    requires Flow(s) && CanCommand(s, step) && !step.OpenDone?
    ensures Flow(DoCommand(s, step))
  {
    var t := DoCommand(s, step);
    CommandQuiet(s, step);
    if step.KeepLock? { FlowAlone(s, t); }
    else if step.MapDone? { FlowDone(s, t); }
    else if step.UnmapDone? { FlowUnmapDone(s); }
    else { FlowIssue(s, t); }
  }

  lemma FlowUnmapDone(s: State)
    requires Flow(s) && s.pc.UnmapWait? && s.pc.p in s.heap && AnswerReady(s)
    ensures Flow(DoUnmapDone(s))
  {
    UnmapQuiet(s);
    FlowDone(s, DoUnmapDone(s));
  }

  lemma CloseQuiet(s: State, step: CloseStep)
    requires CanClose(s, step)
    ensures SameSessions(s, DoClose(s, step)) && SameGone(s, DoClose(s, step))
  {
    if step.Disconnect? { DisconnectQuiet(s); }
  }

  lemma DisconnectQuiet(s: State)
    requires CanClose(s, Disconnect)
    ensures SameSessions(s, DoClose(s, Disconnect)) && SameGone(s, DoClose(s, Disconnect))
  {}

  lemma FlowClose(s: State, step: CloseStep)
    requires Flow(s) && CanClose(s, step)
    ensures Flow(DoClose(s, step))
  {
    CloseQuiet(s, step);
    if step.SendClose? { FlowSendClose(s); }
    else if step.CloseDone? { FlowCloseDone(s); }
    else { CloseAlone(s, step); FlowAlone(s, DoClose(s, step)); }
  }

  lemma FlowSendClose(s: State)
    requires Flow(s) && CanClose(s, SendClose) && SameSessions(s, DoClose(s, SendClose))
    ensures Flow(DoClose(s, SendClose))
  {
    FlowIssue(s, DoClose(s, SendClose));
  }

  lemma FlowCloseDone(s: State)
    requires Flow(s) && CanClose(s, CloseDone)
    requires SameSessions(s, DoClose(s, CloseDone)) && SameGone(s, DoClose(s, CloseDone))
    ensures Flow(DoClose(s, CloseDone))
  {
    FlowDone(s, DoClose(s, CloseDone));
  }

  lemma CloseAlone(s: State, step: CloseStep)
    requires CanClose(s, step) && !step.SendClose? && !step.CloseDone?
    ensures var t := DoClose(s, step);
      t.mcp == s.mcp && t.mcpSem == s.mcpSem && t.unknown == s.unknown && !Waiting(s.pc) && !Waiting(t.pc)
  {}

  lemma FlowClient(s: State, step: ClientStep)
    requires Flow(s) && CanClient(s, step)
    ensures Flow(DoClient(s, step))
  {
    FlowAlone(s, DoClient(s, step));
  }

  lemma FlowTa(s: State, step: TaStep)
    requires Flow(s) && CanTa(s, step)
    ensures Flow(DoTa(s, step))
  {
    TaQuiet(s, step);
    FlowAlone(s, DoTa(s, step));
  }

  lemma TaQuiet(s: State, step: TaStep)
    requires CanTa(s, step)
    ensures var t := DoTa(s, step);
      && SameSessions(s, t) && t.mcp == s.mcp && t.mcpSem == s.mcpSem && t.unknown == s.unknown
      && (t.pc == s.pc || (!Waiting(s.pc) && !Waiting(t.pc) && SameGone(s, t)))
  {}

  lemma FlowFree(s: State, step: FreeStep)
    requires Lifetime(s) && Flow(s) && CanFree(s, step)
    ensures Flow(DoFree(s, step))
  {
    match step
    case UnlinkSession => FlowUnlink(s);
    case DeleteSession => FlowDelete(s);
    case PopBuffer(h) => FlowPop(s, h);
    case NoBuffers => FlowAlone(s, DoFree(s, NoBuffers));
  }

  lemma FlowPop(s: State, h: Handle)
    requires Flow(s) && CanFree(s, PopBuffer(h))
    ensures Flow(DoFree(s, PopBuffer(h)))
  {
    FlowAlone(s, DoFree(s, PopBuffer(h)));
  }

  lemma FlowIrq(s: State, step: IrqStep)
    requires Lifetime(s) && Flow(s) && CanIrq(s, step)
    ensures Flow(DoIrq(s, step))
  {
    match step
    case IrqTake => FlowAlone(s, DoIrq(s, step));
    case IrqDispatch => FlowDispatch(s);
    case IrqDeliver => FlowDeliver(s);
    case IrqWake => FlowAlone(s, DoIrq(s, step));
  }

  lemma FlowKept(s: State, step: Step)
    requires Lifetime(s) && Flow(s) && Enabled(s, step)
    ensures Flow(Apply(s, step))
  {
    match step
    case OfClient(x) => FlowClient(s, x);
    case OfCommand(x) => if x.OpenDone? { FlowOpenDone(s, x.at); } else { FlowCommand(s, x); }
    case OfClose(x) => FlowClose(s, x);
    case OfFree(x) => FlowFree(s, x);
    case OfTa(x) => FlowTa(s, x);
    case OfIrq(x) => FlowIrq(s, x);
    case OfSw(SwStart(sid)) => FlowStart(s, sid);
    case OfSw(SwAnswer(a)) => FlowAnswer(s, a);
    case OfSw(SwNotify(sid, payload)) => FlowNotify(s, sid, payload);
  }
}
