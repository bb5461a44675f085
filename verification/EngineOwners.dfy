/**
 * Connection ownership over all interleavings: no session points to a client connection that is
 * gone, and a connection belongs to a client or to a session, never to both.
 */
module EngineOwners {
  import opened Common
  import opened SessionSpec
  import opened Engine
  import opened EngineLifetime

  /** A session's client connection is allocated and has its device registered. */
  ghost predicate ClientOwners(s: State) {
    && (forall p :: p in s.heap && s.heap[p].owner.Some? ==> s.heap[p].owner.value in s.devices)
    && s.devices <= s.clients
    && s.exiting <= s.dead <= s.clients && s.exiting !! s.devices
    && (Serving(s.pc).Some? ==> Serving(s.pc).value in s.devices)
  }

  /** A session's notification connection has left the client that brought it. */
  ghost predicate NqOwners(s: State) {
    && (forall c :: c in s.clients ==> c < s.nextConn)
    && (forall p :: p in s.heap && s.heap[p].nq.Some? ==>
          s.heap[p].nq.value !in s.clients && s.heap[p].nq.value < s.nextConn)
    && (forall p, q :: p in s.heap && q in s.heap && p < q && s.heap[p].nq.Some? ==>
          s.heap[p].nq != s.heap[q].nq)
  }

  /** Only a GP session loses its client, and then its notification connection is gone too. */
  ghost predicate Orphans(s: State) {
    && (forall p :: p in s.heap && s.heap[p].owner.None? ==> s.heap[p].gp && s.heap[p].nq.None?)
    && (forall p :: p in s.heap && s.heap[p].state == CloseSend ==> s.heap[p].owner.None?)
  }

  ghost predicate Owners(s: State) { ClientOwners(s) && NqOwners(s) && Orphans(s) }

  // ---------------------------------------------------------------- steps that move no connection

  predicate SameConnections(s: State, t: State) {
    && t.clients == s.clients && t.dead == s.dead && t.exiting == s.exiting
    && t.devices == s.devices && t.nextConn == s.nextConn
  }

  ghost predicate SameOwners(s: State, t: State) {
    && t.heap.Keys == s.heap.Keys
    && SameConnections(s, t)
    && (forall p :: p in s.heap ==>
          t.heap[p].owner == s.heap[p].owner && t.heap[p].nq == s.heap[p].nq && t.heap[p].gp == s.heap[p].gp
          && (t.heap[p].state == CloseSend ==> s.heap[p].state == CloseSend))
  }

  lemma OwnersAlone(s: State, t: State)
    requires Owners(s) && SameOwners(s, t)
    requires Serving(t.pc).Some? ==> Serving(t.pc).value in t.devices
    ensures Owners(t)
  {}

  lemma SameOwnersCommand(s: State, step: CommandStep)
    requires CanCommand(s, step) && !step.OpenDone?
    ensures SameOwners(s, DoCommand(s, step))
  {
    match step
    case MapIssue(c, sid, h, len) => SameOwnersMap(s, c, FindSession(s, c, sid).value, h, len);
    case UnmapDone => SameOwnersUnmap(s);
    case _ =>
  }

  /** One object changes, and not in whom it belongs to. */
  lemma SameOwnersOne(s: State, t: State, p: Ptr, x: Session)
    requires p in s.heap && t.heap == s.heap[p := x]
    requires x.owner == s.heap[p].owner && x.nq == s.heap[p].nq && x.gp == s.heap[p].gp
    requires x.state == CloseSend ==> s.heap[p].state == CloseSend
    requires SameConnections(s, t)
    ensures SameOwners(s, t)
  {}

  lemma SameOwnersMap(s: State, c: Conn, p: Ptr, h: Handle, len: nat)
    requires p in s.heap
    ensures SameOwners(s, DoMapIssue(s, c, p, h, len))
  {
    SameOwnersOne(s, DoMapIssue(s, c, p, h, len), p, WithBuffer(s.heap[p], h, len));
  }

  lemma SameOwnersUnmap(s: State)
    requires s.pc.UnmapWait? && s.pc.p in s.heap && AnswerReady(s)
    ensures SameOwners(s, DoUnmapDone(s))
  {
    if s.mcp.answer == Ok {
      SameOwnersOne(s, DoUnmapDone(s), s.pc.p, WithoutBuffer(s.heap[s.pc.p], s.pc.h));
    }
  }

  lemma SameOwnersDeliver(s: State)
    requires s.irq.IrqFound? && s.irq.p in s.heap
    ensures SameOwners(s, DoIrqDeliver(s))
  {
    SameOwnersOne(s, DoIrqDeliver(s), s.irq.p, Delivered(s.heap[s.irq.p], s.irq.n));
  }

  lemma SameOwnersClose(s: State, step: CloseStep)
    requires CanClose(s, step) && !step.Disconnect? && !step.ScanDevice?
    ensures SameOwners(s, DoClose(s, step))
  {}

  lemma SameOwnersFree(s: State, step: FreeStep)
    requires CanFree(s, step) && !step.DeleteSession?
    ensures SameOwners(s, DoFree(s, step))
  {}

  lemma SameOwnersIrq(s: State, step: IrqStep)
    requires CanIrq(s, step)
    ensures SameOwners(s, DoIrq(s, step))
  {
    if step.IrqDeliver? { SameOwnersDeliver(s); }
  }

  // ---------------------------------------------------------------- all steps

  lemma OwnersClient(s: State, step: ClientStep)
    requires Owners(s) && CanClient(s, step)
    ensures Owners(DoClient(s, step))
  {}

  lemma OwnersCommand(s: State, step: CommandStep)
    requires Owners(s) && CanCommand(s, step)
    ensures Owners(DoCommand(s, step))
  {
    if step.OpenDone? { OwnersOpenDone(s, step.at); }
    else { SameOwnersCommand(s, step); OwnersAlone(s, DoCommand(s, step)); }
  }

  lemma OwnersOpenDone(s: State, at: Ptr)
    requires Owners(s) && s.pc.OpenWait? && AnswerReady(s) && at !in s.heap
    ensures Owners(DoOpenDone(s, at))
  {
    if s.mcp.answer.Opened? { OwnersAdded(s, DoOpenDone(s, at), at, OpenedSession(s)); }
    else { OwnersAlone(s, DoOpenDone(s, at)); }
  }

  /** A new object, with a client and without a notification connection. */
  lemma OwnersAdded(s: State, t: State, at: Ptr, x: Session)
    requires Owners(s) && at !in s.heap && t.heap == s.heap[at := x]
    requires x.owner.Some? && x.owner.value in s.devices && x.nq.None? && x.state != CloseSend
    requires SameConnections(s, t)
    requires Serving(t.pc).None?
    ensures Owners(t)
  {}

  lemma OwnersClose(s: State, step: CloseStep)
    requires Lifetime(s) && Owners(s) && CanClose(s, step)
    ensures Owners(DoClose(s, step))
  {
    if step.ScanDevice? { OwnersScan(s); }
    else if step.Disconnect? { OwnersDisconnect(s); }
    else { OwnersSameClose(s, step); }
  }

  lemma OwnersSameClose(s: State, step: CloseStep)
    requires Owners(s) && CanClose(s, step) && !step.Disconnect? && !step.ScanDevice?
    ensures Owners(DoClose(s, step))
  {
    SameOwnersClose(s, step);
    OwnersAlone(s, DoClose(s, step));
  }

  /** The device goes only when no session belongs to it any more. */
  lemma OwnersScan(s: State)
    requires Owners(s) && CanClose(s, ScanDevice) && forall p :: p in s.heap ==> p in s.list
    ensures Owners(DoClose(s, ScanDevice))
  {}

  lemma OwnersDisconnect(s: State)
    requires Owners(s) && CanClose(s, Disconnect)
    ensures Owners(DoClose(s, Disconnect))
  {}

  lemma OwnersFree(s: State, step: FreeStep)
    requires Owners(s) && CanFree(s, step)
    ensures Owners(DoFree(s, step))
  {
    if !step.DeleteSession? { SameOwnersFree(s, step); OwnersAlone(s, DoFree(s, step)); }
  }

  lemma OwnersTa(s: State, step: TaStep)
    requires Owners(s) && CanTa(s, step)
    ensures Owners(DoTa(s, step))
  {
    TaServesNobody(s, step);
    OwnersAlone(s, DoTa(s, step));
  }

  lemma TaServesNobody(s: State, step: TaStep)
    requires CanTa(s, step)
    ensures var t := DoTa(s, step); SameOwners(s, t) && (t.pc == s.pc || Serving(t.pc).None?)
  {}

  lemma OwnersIrq(s: State, step: IrqStep)
    requires Owners(s) && CanIrq(s, step)
    ensures Owners(DoIrq(s, step))
  {
    SameOwnersIrq(s, step);
    OwnersAlone(s, DoIrq(s, step));
  }

  lemma OwnersSw(s: State, step: SwStep)
    requires Owners(s) && CanSw(s, step)
    ensures Owners(DoSw(s, step))
  {
    OwnersAlone(s, DoSw(s, step));
  }

  lemma OwnersKept(s: State, step: Step)
    requires Lifetime(s) && Owners(s) && Enabled(s, step)
    ensures Owners(Apply(s, step))
  {
    match step
    case OfClient(x) => OwnersClient(s, x);
    case OfCommand(x) => OwnersCommand(s, x);
    case OfClose(x) => OwnersClose(s, x);
    case OfFree(x) => OwnersFree(s, x);
    case OfTa(x) => OwnersTa(s, x);
    case OfIrq(x) => OwnersIrq(s, x);
    case OfSw(x) => OwnersSw(s, x);
  }
}
