/**
 * The deferred close of GP sessions: an exit announced by the secure world is never dropped, and a
 * close that is repeated after it cannot fail.
 */
module EngineExit {
  import opened Common
  import opened SessionSpec
  import opened Engine
  import opened EngineLifetime
  import opened EngineOwners
  import opened EngineStream

  /** The secure world has announced that the session's TA is gone. */
  predicate Exited(s: State, sid: Sid) { sid in s.sw && s.sw[sid].exited }

  ghost predicate AllAnnounced(s: State, ns: seq<Notification>) {
    forall n :: n in ns && n.payload != 0 && n.sessionId in s.sw && s.sw[n.sessionId].gp ==>
      s.sw[n.sessionId].exited
  }

  /** Daemon and secure world agree on which sessions are GP, and only those announce exits. */
  ghost predicate Kinds(s: State) {
    && (forall sid :: sid in s.sw && s.sw[sid].exited ==> s.sw[sid].gp)
    && (forall p :: p in s.heap && s.heap[p].sessionId in s.sw ==>
          s.sw[s.heap[p].sessionId].gp == s.heap[p].gp)
    && (Newborn(s).Some? && Newborn(s).value in s.sw ==> s.sw[Newborn(s).value].gp == s.pc.gp)
  }

  /** A session is marked dead, and an exit is on its way, only if the secure world announced it. */
  ghost predicate Announced(s: State) {
    && AllAnnounced(s, Stream(s))
    && AllAnnounced(s, s.unknown)
    && (forall p :: p in s.heap && s.heap[p].state == TaDead ==>
          s.heap[p].gp && (s.heap[p].sessionId in s.sw ==> s.sw[s.heap[p].sessionId].exited))
  }

  /** The second close, and every close by the TA-exit thread, is of a dead session. */
  predicate Retries(s: State) {
    && (s.pc.CloseMark? || s.pc.CloseCheck? ==> !s.pc.who.OnTaExit?)
    && ((s.pc.CloseIssue? || s.pc.CloseWait?) && (s.pc.again || s.pc.who.OnTaExit?) ==>
          s.pc.p in s.heap && s.heap[s.pc.p].state == TaDead)
  }

  /** An exit notification of the session is on its way to the IRQ thread. */
  ghost predicate InFlight(st: seq<Notification>, sid: Sid) {
    exists i :: 0 <= i < |st| && st[i].sessionId == sid && st[i].payload != 0
  }

  /** The holder of mutex_mcp is about to ask the secure world to close the session. */
  predicate Asking(s: State, p: Ptr) {
    (s.pc.CloseIssue? && s.pc.p == p) || (s.pc.CloseWait? && s.pc.p == p && s.mcp.Request?)
  }

  /** Nobody forgets a session that lost its client and whose TA has exited. */
  ghost predicate NotStranded(s: State) {
    forall p :: p in s.list && p in s.heap && s.heap[p].owner.None? && Exited(s, s.heap[p].sessionId) ==>
      s.heap[p].state == TaDead || InFlight(Stream(s), s.heap[p].sessionId) || Asking(s, p)
  }

  // ---------------------------------------------------------------- Kinds

  lemma KindsAlone(s: State, t: State)
    requires Kinds(s) && t.sw == s.sw
    requires forall p :: p in t.heap ==>
      p in s.heap && t.heap[p].sessionId == s.heap[p].sessionId && t.heap[p].gp == s.heap[p].gp
    requires Newborn(t).Some? ==> t.pc == s.pc && t.mcp == s.mcp
    ensures Kinds(t)
  {}

  lemma KindsCommand(s: State, step: CommandStep)
    requires Kinds(s) && CanCommand(s, step)
    ensures Kinds(DoCommand(s, step))
  {
    if step.OpenDone? { KindsOpenDone(s, step.at); }
    else if step.MapIssue? { KindsMap(s, step.c, FindSession(s, step.c, step.sid).value, step.h, step.len); }
    else if step.UnmapDone? { KindsUnmap(s); }
    else { KindsAlone(s, DoCommand(s, step)); }
  }

  lemma KindsOpenDone(s: State, at: Ptr)
    requires Kinds(s) && s.pc.OpenWait? && AnswerReady(s) && at !in s.heap
    ensures Kinds(DoOpenDone(s, at))
  {}

  lemma KindsMap(s: State, c: Conn, p: Ptr, h: Handle, len: nat)
    requires Kinds(s) && p in s.heap
    ensures Kinds(DoMapIssue(s, c, p, h, len))
  {
    KindsAlone(s, DoMapIssue(s, c, p, h, len));
  }

  lemma KindsUnmap(s: State)
    requires Kinds(s) && s.pc.UnmapWait? && s.pc.p in s.heap && AnswerReady(s)
    ensures Kinds(DoUnmapDone(s))
  {
    KindsAlone(s, DoUnmapDone(s));
  }

  lemma KindsClose(s: State, step: CloseStep)
    requires Kinds(s) && CanClose(s, step)
    ensures Kinds(DoClose(s, step))
  {
    KindsAlone(s, DoClose(s, step));
  }

  lemma KindsClient(s: State, step: ClientStep)
    requires Kinds(s) && CanClient(s, step)
    ensures Kinds(DoClient(s, step))
  {
    KindsAlone(s, DoClient(s, step));
  }

  lemma KindsFree(s: State, step: FreeStep)
    requires Kinds(s) && CanFree(s, step)
    ensures Kinds(DoFree(s, step))
  {
    KindsAlone(s, DoFree(s, step));
  }

  lemma KindsTa(s: State, step: TaStep)
    requires Kinds(s) && CanTa(s, step)
    ensures Kinds(DoTa(s, step))
  {
    KindsAlone(s, DoTa(s, step));
  }

  lemma KindsIrq(s: State, step: IrqStep)
    requires Kinds(s) && CanIrq(s, step)
    ensures Kinds(DoIrq(s, step))
  {
    if step.IrqDeliver? { KindsAlone(s, DoIrqDeliver(s)); } else { KindsAlone(s, DoIrq(s, step)); }
  }

  lemma KindsSw(s: State, step: SwStep)
    requires Kinds(s) && Flow(s) && CanSw(s, step)
    ensures Kinds(DoSw(s, step))
  {
    match step
    case SwStart(sid) => KindsStart(s, sid);
    case SwAnswer(a) => KindsAnswer(s, a);
    case SwNotify(sid, payload) => KindsNotify(s, sid, payload);
  }

  lemma KindsAnswer(s: State, a: Answer)
    requires Kinds(s) && Pipeline(s) && Registered(s) && CanSw(s, SwAnswer(a))
    ensures Kinds(DoSw(s, SwAnswer(a)))
  {
    var t := DoSw(s, SwAnswer(a));
    forall sid | sid in t.sw
      ensures sid in s.sw && t.sw[sid].gp == s.sw[sid].gp && t.sw[sid].exited == s.sw[sid].exited
    {}
    assert Newborn(t).Some? ==> Newborn(t) == Newborn(s);
  }

  lemma KindsStart(s: State, sid: Sid)
    requires Kinds(s) && Pipeline(s) && Registered(s) && CanSw(s, SwStart(sid))
    ensures Kinds(DoSw(s, SwStart(sid)))
  {
    assert Waiting(s.pc) && Matches(s, s.mcp.cmd);
    forall p | p in s.heap ensures s.heap[p].sessionId != sid { assert !Gone(s, p); }
  }

  lemma KindsNotify(s: State, sid: Sid, payload: int)
    requires Kinds(s) && sid in s.sw
    ensures Kinds(DoSw(s, SwNotify(sid, payload)))
  {}

  lemma KindsKept(s: State, step: Step)
    requires Flow(s) && Kinds(s) && Enabled(s, step)
    ensures Kinds(Apply(s, step))
  {
    match step
    case OfClient(x) => KindsClient(s, x);
    case OfCommand(x) => KindsCommand(s, x);
    case OfClose(x) => KindsClose(s, x);
    case OfFree(x) => KindsFree(s, x);
    case OfTa(x) => KindsTa(s, x);
    case OfIrq(x) => KindsIrq(s, x);
    case OfSw(x) => KindsSw(s, x);
  }

  // ---------------------------------------------------------------- Announced

  /** No session becomes dead, nothing new is on its way, the secure world does not move. */
  lemma AnnouncedAlone(s: State, t: State)
    requires Announced(s) && t.sw == s.sw
    requires forall n :: n in Stream(t) ==> n in Stream(s)
    requires forall n :: n in t.unknown ==> n in s.unknown
    requires forall p :: p in t.heap && t.heap[p].state == TaDead ==>
      (p in s.heap && s.heap[p].state == TaDead
       && s.heap[p].gp == t.heap[p].gp && s.heap[p].sessionId == t.heap[p].sessionId)
    ensures Announced(t)
  {}

  lemma AnnouncedCommand(s: State, step: CommandStep)
    requires Announced(s) && Kinds(s) && Early(s) && CanCommand(s, step)
    ensures Announced(DoCommand(s, step))
  {
    if step.OpenDone? { AnnouncedOpenDone(s, step.at); }
    else if step.MapIssue? { AnnouncedMap(s, step.c, FindSession(s, step.c, step.sid).value, step.h, step.len); }
    else if step.UnmapDone? { AnnouncedUnmap(s); }
    else { AnnouncedAlone(s, DoCommand(s, step)); }
  }

  lemma AnnouncedMap(s: State, c: Conn, p: Ptr, h: Handle, len: nat)
    requires Announced(s) && p in s.heap
    ensures Announced(DoMapIssue(s, c, p, h, len))
  {
    AnnouncedAlone(s, DoMapIssue(s, c, p, h, len));
  }

  lemma AnnouncedUnmap(s: State)
    requires Announced(s) && s.pc.UnmapWait? && s.pc.p in s.heap && AnswerReady(s)
    ensures Announced(DoUnmapDone(s))
  {
    AnnouncedAlone(s, DoUnmapDone(s));
  }

  lemma AnnouncedOpenDone(s: State, at: Ptr)
    requires Announced(s) && Kinds(s) && Early(s) && s.pc.OpenWait? && AnswerReady(s)
    ensures Announced(DoOpenDone(s, at))
  {
    if s.mcp.answer.Opened? {
      QueueAllCuts(CreatedSession(s), s.unknown);
      assert OpenedSession(s).state == TaDead ==> s.pc.gp && exists n :: n in s.unknown && n.payload != 0;
    }
  }

  lemma AnnouncedClose(s: State, step: CloseStep)
    requires Announced(s) && CanClose(s, step)
    ensures Announced(DoClose(s, step))
  {
    AnnouncedAlone(s, DoClose(s, step));
  }

  lemma AnnouncedDispatch(s: State)
    requires Announced(s) && s.irq.IrqGot?
    ensures Announced(DoIrqDispatch(s))
  {
    var t := DoIrqDispatch(s);
    assert s.irq.n in Stream(s);
    assert forall n :: n in Stream(t) ==> n in Stream(s);
  }

  lemma AnnouncedDeliver(s: State)
    requires Announced(s) && Kinds(s) && s.irq.IrqFound? && s.irq.p in s.heap
    requires s.heap[s.irq.p].sessionId == s.irq.n.sessionId
    ensures Announced(DoIrqDeliver(s))
  {
    assert s.irq.n in Stream(s);
    assert forall n :: n in s.ring ==> n in Stream(s);
  }

  lemma AnnouncedIrq(s: State, step: IrqStep)
    requires Announced(s) && Kinds(s) && Ids(s) && CanIrq(s, step)
    ensures Announced(DoIrq(s, step))
  {
    match step
    case IrqTake => AnnouncedAlone(s, DoIrq(s, step));
    case IrqDispatch => AnnouncedDispatch(s);
    case IrqDeliver => AnnouncedDeliver(s);
    case IrqWake => AnnouncedAlone(s, DoIrq(s, step));
  }

  lemma AnnouncedNotify(s: State, sid: Sid, payload: int)
    requires Announced(s) && sid in s.sw
    ensures Announced(DoSw(s, SwNotify(sid, payload)))
  {
    var t := DoSw(s, SwNotify(sid, payload));
    assert Stream(t) == Stream(s) + [Notification(sid, payload)];
  }

  lemma AnnouncedAnswer(s: State, a: Answer)
    requires Announced(s) && Flow(s) && CanSw(s, SwAnswer(a))
    ensures Announced(DoSw(s, SwAnswer(a)))
  {
    var t := DoSw(s, SwAnswer(a));
    assert Stream(t) == Stream(s) + [Notification(SID_MCP, 0)];
    forall sid | sid in t.sw
      ensures sid in s.sw && t.sw[sid].gp == s.sw[sid].gp && t.sw[sid].exited == s.sw[sid].exited
    {}
  }

  lemma AnnouncedStart(s: State, sid: Sid)
    requires Announced(s) && Flow(s) && CanSw(s, SwStart(sid))
    ensures Announced(DoSw(s, SwStart(sid)))
  {
    StartIsSilent(s, sid);
    assert s.unknown == [];
  }

  /** A session that starts has no notification on its way and no object yet. */
  lemma StartIsSilent(s: State, sid: Sid)
    requires Flow(s) && CanSw(s, SwStart(sid))
    ensures forall n :: n in Stream(s) ==> n.sessionId != sid
    ensures forall p :: p in s.heap ==> s.heap[p].sessionId != sid
  {
    assert Waiting(s.pc) && Matches(s, s.mcp.cmd);
    forall p | p in s.heap ensures s.heap[p].sessionId != sid { assert !Gone(s, p); }
  }

  lemma AnnouncedKept(s: State, step: Step)
    requires Flow(s) && Kinds(s) && Announced(s) && Enabled(s, step)
    ensures Announced(Apply(s, step))
  {
    match step
    case OfClient(x) => AnnouncedClient(s, x);
    case OfCommand(x) => AnnouncedCommand(s, x);
    case OfClose(x) => AnnouncedClose(s, x);
    case OfFree(x) => AnnouncedFree(s, x);
    case OfTa(x) => AnnouncedTa(s, x);
    case OfIrq(x) => AnnouncedIrq(s, x);
    case OfSw(SwStart(sid)) => AnnouncedStart(s, sid);
    case OfSw(SwAnswer(a)) => AnnouncedAnswer(s, a);
    case OfSw(SwNotify(sid, payload)) => AnnouncedNotify(s, sid, payload);
  }

  lemma AnnouncedTa(s: State, step: TaStep)
    requires Announced(s) && CanTa(s, step)
    ensures Announced(DoTa(s, step))
  {
    AnnouncedAlone(s, DoTa(s, step));
  }

  lemma AnnouncedClient(s: State, step: ClientStep)
    requires Announced(s) && CanClient(s, step)
    ensures Announced(DoClient(s, step))
  {
    AnnouncedAlone(s, DoClient(s, step));
  }

  lemma AnnouncedFree(s: State, step: FreeStep)
    requires Announced(s) && CanFree(s, step)
    ensures Announced(DoFree(s, step))
  {
    AnnouncedAlone(s, DoFree(s, step));
  }

  // ---------------------------------------------------------------- Retries

  lemma RetriesKept(s: State, step: Step)
    requires Retries(s) && Enabled(s, step)
    ensures Retries(Apply(s, step))
  {
    match step
    case OfClient(x) => RetriesClient(s, x);
    case OfCommand(x) => RetriesCommand(s, x);
    case OfClose(x) => RetriesClose(s, x);
    case OfFree(x) => RetriesFree(s, x);
    case OfTa(x) =>
    case OfIrq(x) => RetriesIrq(s, x);
    case OfSw(x) =>
  }

  lemma RetriesClient(s: State, step: ClientStep)
    requires Retries(s) && CanClient(s, step)
    ensures Retries(DoClient(s, step))
  {}

  lemma RetriesCommand(s: State, step: CommandStep)
    requires Retries(s) && CanCommand(s, step)
    ensures Retries(DoCommand(s, step))
  {}

  lemma RetriesClose(s: State, step: CloseStep)
    requires Retries(s) && CanClose(s, step)
    ensures Retries(DoClose(s, step))
  {}

  lemma RetriesFree(s: State, step: FreeStep)
    requires Retries(s) && CanFree(s, step)
    ensures Retries(DoFree(s, step))
  {}

  lemma RetriesIrq(s: State, step: IrqStep)
    requires Retries(s) && CanIrq(s, step)
    ensures Retries(DoIrq(s, step))
  {}

  // ---------------------------------------------------------------- NotStranded

  /** Nothing is taken from the stream, and no session is orphaned, revived or newly exited. */
  lemma NotStrandedAlone(s: State, t: State)
    requires NotStranded(s)
    requires Stream(t) == Stream(s) && forall sid :: Exited(t, sid) ==> Exited(s, sid)
    requires forall p :: p in t.list && p in t.heap && t.heap[p].owner.None? ==>
      (p in s.list && p in s.heap && s.heap[p].sessionId == t.heap[p].sessionId
       && ((s.heap[p].owner.None? && (s.heap[p].state == TaDead ==> t.heap[p].state == TaDead)) || Asking(t, p)))
    requires forall p :: Asking(s, p) ==> Asking(t, p)
    ensures NotStranded(t)
  {}

  lemma NotStrandedClient(s: State, step: ClientStep)
    requires NotStranded(s) && CanClient(s, step)
    ensures NotStranded(DoClient(s, step))
  {
    NotStrandedAlone(s, DoClient(s, step));
  }

  lemma NotStrandedCommand(s: State, step: CommandStep)
    requires NotStranded(s) && CanCommand(s, step)
    ensures NotStranded(DoCommand(s, step))
  {
    if step.OpenDone? { NotStrandedOpenDone(s, step.at); }
    else if step.MapIssue? { NotStrandedMap(s, step.c, FindSession(s, step.c, step.sid).value, step.h, step.len); }
    else if step.UnmapDone? { NotStrandedUnmap(s); }
    else { NotStrandedAlone(s, DoCommand(s, step)); }
  }

  lemma NotStrandedOpenDone(s: State, at: Ptr)
    requires NotStranded(s) && s.pc.OpenWait? && AnswerReady(s) && at !in s.heap
    ensures NotStranded(DoOpenDone(s, at))
  {
    NotStrandedAlone(s, DoOpenDone(s, at));
  }

  lemma NotStrandedMap(s: State, c: Conn, p: Ptr, h: Handle, len: nat)
    requires NotStranded(s) && s.pc.Free? && p in s.heap
    ensures NotStranded(DoMapIssue(s, c, p, h, len))
  {
    NotStrandedAlone(s, DoMapIssue(s, c, p, h, len));
  }

  lemma NotStrandedUnmap(s: State)
    requires NotStranded(s) && s.pc.UnmapWait? && s.pc.p in s.heap && AnswerReady(s)
    ensures NotStranded(DoUnmapDone(s))
  {
    NotStrandedAlone(s, DoUnmapDone(s));
  }

  lemma NotStrandedClose(s: State, step: CloseStep)
    requires NotStranded(s) && CanClose(s, step)
    ensures NotStranded(DoClose(s, step))
  {
    NotStrandedAlone(s, DoClose(s, step));
  }

  lemma NotStrandedFree(s: State, step: FreeStep)
    requires NotStranded(s) && CanFree(s, step)
    ensures NotStranded(DoFree(s, step))
  {
    NotStrandedAlone(s, DoFree(s, step));
  }

  lemma NotStrandedTa(s: State, step: TaStep)
    requires NotStranded(s) && CanTa(s, step)
    ensures NotStranded(DoTa(s, step))
  {
    NotStrandedAlone(s, DoTa(s, step));
  }

  lemma InFlightNext(st: seq<Notification>, sid: Sid)
    requires st != [] && InFlight(st, sid) && (st[0].sessionId != sid || st[0].payload == 0)
    ensures InFlight(st[1..], sid)
  {
    var i :| 0 <= i < |st| && st[i].sessionId == sid && st[i].payload != 0;
    assert st[1..][i - 1] == st[i];
  }

  lemma NotStrandedDispatch(s: State)
    requires Ids(s) && NotStranded(s) && s.irq.IrqGot?
    ensures NotStranded(DoIrqDispatch(s))
  {
    var t := DoIrqDispatch(s);
    assert Stream(s) == [s.irq.n] + s.ring;
    forall p | p in t.list && p in t.heap && t.heap[p].owner.None? && Exited(t, t.heap[p].sessionId)
      ensures t.heap[p].state == TaDead || InFlight(Stream(t), t.heap[p].sessionId) || Asking(t, p)
    {
      if InFlight(Stream(s), s.heap[p].sessionId) && !t.irq.IrqFound? {
        InFlightNext(Stream(s), s.heap[p].sessionId);
      }
    }
  }

  lemma NotStrandedDeliver(s: State)
    requires Orphans(s) && Ids(s) && NotStranded(s) && s.irq.IrqFound? && s.irq.p in s.heap
    ensures NotStranded(DoIrqDeliver(s))
  {
    var t := DoIrqDeliver(s);
    assert Stream(s) == [s.irq.n] + s.ring;
    forall p | p in t.list && p in t.heap && t.heap[p].owner.None? && Exited(t, t.heap[p].sessionId)
      ensures t.heap[p].state == TaDead || InFlight(Stream(t), t.heap[p].sessionId) || Asking(t, p)
    {
      var sid := s.heap[p].sessionId;
      if InFlight(Stream(s), sid) && (p != s.irq.p || s.irq.n.payload == 0) {
        assert p != s.irq.p ==> sid != s.irq.n.sessionId;
        InFlightNext(Stream(s), sid);
      }
    }
  }

  lemma NotStrandedIrq(s: State, step: IrqStep)
    requires Lifetime(s) && Orphans(s) && Flow(s) && NotStranded(s) && CanIrq(s, step)
    ensures NotStranded(DoIrq(s, step))
  {
    match step
    case IrqTake => NotStrandedAlone(s, DoIrq(s, step));
    case IrqDispatch => NotStrandedDispatch(s);
    case IrqDeliver => NotStrandedDeliver(s);
    case IrqWake => NotStrandedAlone(s, DoIrq(s, step));
  }

  lemma NotStrandedNotify(s: State, sid: Sid, payload: int)
    requires NotStranded(s) && sid in s.sw
    ensures NotStranded(DoSw(s, SwNotify(sid, payload)))
  {
    var t := DoSw(s, SwNotify(sid, payload));
    forall p | p in t.list && p in t.heap && t.heap[p].owner.None? && Exited(t, t.heap[p].sessionId)
      ensures t.heap[p].state == TaDead || InFlight(Stream(t), t.heap[p].sessionId) || Asking(t, p)
    {
      InFlightGrows(Stream(s), Notification(sid, payload), s.heap[p].sessionId);
      assert Stream(t) == Stream(s) + [Notification(sid, payload)];
    }
  }

  lemma NotStrandedAnswer(s: State, a: Answer)
    requires Ids(s) && Pipeline(s) && NotStranded(s) && CanSw(s, SwAnswer(a))
    ensures NotStranded(DoSw(s, SwAnswer(a)))
  {
    var t := DoSw(s, SwAnswer(a));
    forall p | p in t.list && p in t.heap && t.heap[p].owner.None? && Exited(t, t.heap[p].sessionId)
      ensures t.heap[p].state == TaDead || InFlight(Stream(t), t.heap[p].sessionId) || Asking(t, p)
    {
      var sid := s.heap[p].sessionId;
      ExitedBefore(s, a, sid);
      InFlightGrows(Stream(s), Notification(SID_MCP, 0), sid);
      assert Stream(t) == Stream(s) + [Notification(SID_MCP, 0)];
      if Asking(s, p) { ClosedIsGone(s, a, p); }
    }
  }

  /** An answer makes no session exited that was not. */
  lemma ExitedBefore(s: State, a: Answer, sid: Sid)
    requires CanSw(s, SwAnswer(a)) && Exited(DoSw(s, SwAnswer(a)), sid)
    ensures Exited(s, sid)
  {}

  /** The session asked about is closed by the answer, or has not exited. */
  lemma ClosedIsGone(s: State, a: Answer, p: Ptr)
    requires Pipeline(s) && CanSw(s, SwAnswer(a)) && p in s.heap && Asking(s, p)
    ensures !Exited(DoSw(s, SwAnswer(a)), s.heap[p].sessionId)
  {}

  lemma NotStrandedSw(s: State, step: SwStep)
    requires Flow(s) && NotStranded(s) && CanSw(s, step)
    ensures NotStranded(DoSw(s, step))
  {
    match step
    case SwStart(sid) => NotStrandedAlone(s, DoSw(s, step));
    case SwAnswer(a) => NotStrandedAnswer(s, a);
    case SwNotify(sid, payload) => NotStrandedNotify(s, sid, payload);
  }

  lemma InFlightGrows(st: seq<Notification>, n: Notification, sid: Sid)
    ensures InFlight(st, sid) ==> InFlight(st + [n], sid)
    ensures n.sessionId == sid && n.payload != 0 ==> InFlight(st + [n], sid)
  {
    if InFlight(st, sid) {
      var i :| 0 <= i < |st| && st[i].sessionId == sid && st[i].payload != 0;
      assert (st + [n])[i] == st[i];
    }
    assert (st + [n])[|st|] == n;
  }

  lemma NotStrandedKept(s: State, step: Step)
    requires Lifetime(s) && Orphans(s) && Flow(s) && NotStranded(s) && Enabled(s, step)
    ensures NotStranded(Apply(s, step))
  {
    match step
    case OfClient(x) => NotStrandedClient(s, x);
    case OfCommand(x) => NotStrandedCommand(s, x);
    case OfClose(x) => NotStrandedClose(s, x);
    case OfFree(x) => NotStrandedFree(s, x);
    case OfTa(x) => NotStrandedTa(s, x);
    case OfIrq(x) => NotStrandedIrq(s, x);
    case OfSw(x) => NotStrandedSw(s, x);
  }
}
