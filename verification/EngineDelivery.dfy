/**
 * Notification delivery over all interleavings: what a session's connection was sent and what its
 * queue still holds are exactly the session's own notifications since its OPEN began, in order.
 */
module EngineDelivery {
  import opened Common
  import opened SessionSpec
  import opened Engine
  import opened EngineLifetime
  import opened EngineStream

  /** What the queue keeps of a stream: a GP session's queue ends with the first exit. */
  ghost function Kept(gp: bool, ns: seq<Notification>): seq<Notification> {
    if gp then Cut(ns) else ns
  }

  ghost function StateFor(gp: bool, ns: seq<Notification>): TaState {
    if gp && HasExit(ns) then TaDead else TaRunning
  }

  /**
   * The session has been served from the handler's log: before NQ_CONNECT everything is queued,
   * up to the first exit for a GP session; NQ_CONNECT moves the queue to the connection; and from
   * then on everything is forwarded.
   */
  ghost predicate Served(log: seq<Notification>, x: Session) {
    && x.openedAt <= |log|
    && match x.attachedAt
       case None =>
         var seen := Filter(log[x.openedAt..], x.sessionId);
         && x.nq.None? && x.written == []
         && x.queue == Kept(x.gp, seen) && x.state == StateFor(x.gp, seen)
       case Some(a) =>
         && x.openedAt <= a <= |log|
         && var before := Filter(log[x.openedAt..a], x.sessionId);
            && x.nq.Some? && x.queue == [] && x.state == StateFor(x.gp, before)
            && x.written == Kept(x.gp, before) + Filter(log[a..], x.sessionId)
  }

  /** An OPEN has been sent and its session has not started. */
  predicate Unstarted(s: State) { s.pc.OpenWait? && s.mcp.Request? && s.mcp.started.None? }

  /** While a session is being opened, the early notifications are those of the new session since OPEN. */
  ghost predicate OpenSeen(s: State) {
    s.pc.OpenWait? ==>
      && s.pc.from <= |s.log|
      && (Unstarted(s) ==> forall i :: s.pc.from <= i < |s.log| ==> s.log[i].sessionId in s.sw)
      && (Newborn(s).Some? ==> s.unknown == Filter(s.log[s.pc.from..], Newborn(s).value))
  }

  ghost predicate AllServed(s: State) {
    forall p :: p in s.list && p in s.heap && s.heap[p].owner.Some? ==> Served(s.log, s.heap[p])
  }

  ghost predicate Delivery(s: State) { AllServed(s) && OpenSeen(s) }

  // ---------------------------------------------------------------- one session

  /** One more entry in the log, seen by the session or not. */
  function Seen(n: Notification, sid: Sid): seq<Notification> {
    if n.sessionId == sid then [n] else []
  }

  lemma FilterGrows(log: seq<Notification>, n: Notification, from: nat, sid: Sid)
    requires from <= |log|
    ensures Filter((log + [n])[from..], sid) == Filter(log[from..], sid) + Seen(n, sid)
  {
    FilterSuffixSnoc(log, n, from, sid);
  }

  lemma ServedOther(log: seq<Notification>, n: Notification, x: Session)
    requires Served(log, x) && n.sessionId != x.sessionId
    ensures Served(log + [n], x)
  {
    if x.attachedAt.None? {
      ServedUnseen(log, n, x);
    } else {
      assert x.written + [] == x.written;
      ServedForwarded(log, n, x, x.(written := x.written + Seen(n, x.sessionId)));
    }
  }

  lemma ServedUnseen(log: seq<Notification>, n: Notification, x: Session)
    requires Served(log, x) && x.attachedAt.None? && n.sessionId != x.sessionId
    ensures Served(log + [n], x)
  {
    FilterGrows(log, n, x.openedAt, x.sessionId);
    assert Filter(log[x.openedAt..], x.sessionId) + [] == Filter(log[x.openedAt..], x.sessionId);
  }

  lemma ServedForwarded(log: seq<Notification>, n: Notification, x: Session, y: Session)
    requires Served(log, x) && x.attachedAt.Some?
    requires y == x.(written := x.written + Seen(n, x.sessionId))
    ensures Served(log + [n], y)
  {
    var a := x.attachedAt.value;
    FilterGrows(log, n, a, x.sessionId);
    assert (log + [n])[x.openedAt..a] == log[x.openedAt..a];
    var before, after := Kept(x.gp, Filter(log[x.openedAt..a], x.sessionId)), Filter(log[a..], x.sessionId);
    Associative(before, after, Seen(n, x.sessionId));
  }

  lemma Associative(a: seq<Notification>, b: seq<Notification>, c: seq<Notification>)
    ensures a + b + c == a + (b + c)
  {}

  lemma ServedDelivered(log: seq<Notification>, n: Notification, x: Session)
    requires Served(log, x) && n.sessionId == x.sessionId
    ensures Served(log + [n], Delivered(x, n))
  {
    if x.attachedAt.None? {
      ServedQueued(log, n, x);
    } else {
      ServedForwarded(log, n, x, Delivered(x, n));
    }
  }

  lemma ServedQueued(log: seq<Notification>, n: Notification, x: Session)
    requires Served(log, x) && x.attachedAt.None? && n.sessionId == x.sessionId
    ensures Served(log + [n], Delivered(x, n))
  {
    var seen := Filter(log[x.openedAt..], x.sessionId);
    FilterGrows(log, n, x.openedAt, x.sessionId);
    assert Filter((log + [n])[x.openedAt..], x.sessionId) == seen + [n];
    QueuedOnMore(x, seen, n);
  }

  lemma QueuedOnMore(x: Session, seen: seq<Notification>, n: Notification)
    requires x.nq.None? && x.queue == Kept(x.gp, seen) && x.state == StateFor(x.gp, seen)
    ensures var y := Delivered(x, n);
      y == x.(queue := Kept(x.gp, seen + [n]), state := StateFor(x.gp, seen + [n]))
  {
    CutSnoc(seen, n);
  }

  lemma ServedAttached(log: seq<Notification>, x: Session, c: Conn)
    requires Served(log, x)
    ensures Served(log, Attached(x, c, |log|))
  {
    assert log[x.openedAt..|log|] == log[x.openedAt..];
    assert log[|log|..] == [];
  }

  lemma ServedOpened(s: State)
    requires s.pc.OpenWait? && s.mcp.Response? && s.mcp.answer.Opened? && OpenSeen(s)
    ensures Served(s.log, OpenedSession(s))
  {
    QueueAllCuts(CreatedSession(s), s.unknown);
  }

  /** The notifications of an id that occurs nowhere in the stream. */
  lemma {:induction false} FilterNone(ns: seq<Notification>, sid: Sid)
    requires forall i :: 0 <= i < |ns| ==> ns[i].sessionId != sid
    ensures Filter(ns, sid) == []
  {
    if ns != [] { FilterNone(ns[..|ns| - 1], sid); }
  }

  // ---------------------------------------------------------------- steps that deliver nothing

  /** Sessions change at most in their buffers; none is listed or gets a client. */
  ghost predicate SameServed(s: State, t: State) {
    && t.log == s.log
    && (forall p :: p in t.list && p in t.heap && t.heap[p].owner.Some? ==>
          p in s.list && p in s.heap && s.heap[p].owner.Some?
          && t.heap[p] == s.heap[p].(buffers := t.heap[p].buffers))
  }

  lemma DeliveryAlone(s: State, t: State)
    requires Delivery(s) && SameServed(s, t)
    requires OpenSeen(t)
    ensures Delivery(t)
  {
    forall p | p in t.list && p in t.heap && t.heap[p].owner.Some? ensures Served(t.log, t.heap[p]) {
      assert Served(s.log, s.heap[p]);
    }
  }

  lemma DeliveryCommand(s: State, step: CommandStep)
    requires Delivery(s) && CanCommand(s, step)
    ensures Delivery(DoCommand(s, step))
  {
    if step.OpenDone? { DeliveryOpenDone(s, step.at); }
    else if step.MapIssue? { DeliveryMap(s, step.c, FindSession(s, step.c, step.sid).value, step.h, step.len); }
    else if step.UnmapDone? { DeliveryUnmap(s); }
    else { DeliveryAlone(s, DoCommand(s, step)); }
  }

  lemma DeliveryMap(s: State, c: Conn, p: Ptr, h: Handle, len: nat)
    requires Delivery(s) && p in s.heap
    ensures Delivery(DoMapIssue(s, c, p, h, len))
  {
    DeliveryAlone(s, DoMapIssue(s, c, p, h, len));
  }

  lemma DeliveryUnmap(s: State)
    requires Delivery(s) && s.pc.UnmapWait? && s.pc.p in s.heap && AnswerReady(s)
    ensures Delivery(DoUnmapDone(s))
  {
    DeliveryAlone(s, DoUnmapDone(s));
  }

  lemma DeliveryTa(s: State, step: TaStep)
    requires Delivery(s) && CanTa(s, step)
    ensures Delivery(DoTa(s, step))
  {
    DeliveryAlone(s, DoTa(s, step));
  }

  lemma DeliveryClose(s: State, step: CloseStep)
    requires Delivery(s) && CanClose(s, step)
    ensures Delivery(DoClose(s, step))
  {
    DeliveryAlone(s, DoClose(s, step));
  }

  lemma DeliveryFree(s: State, step: FreeStep)
    requires Delivery(s) && CanFree(s, step)
    ensures Delivery(DoFree(s, step))
  {
    DeliveryAlone(s, DoFree(s, step));
  }

  // ---------------------------------------------------------------- steps that do

  lemma DeliveryOpenDone(s: State, at: Ptr)
    requires Delivery(s) && s.pc.OpenWait? && AnswerReady(s) && at !in s.heap
    ensures Delivery(DoOpenDone(s, at))
  {
    if s.mcp.answer.Opened? {
      ServedOpened(s);
    } else {
      DeliveryAlone(s, DoOpenDone(s, at));
    }
  }

  lemma DeliveryAttach(s: State, c: Conn, p: Ptr)
    requires Delivery(s) && CanClient(s, NqConnect(c, p))
    ensures Delivery(DoClient(s, NqConnect(c, p)))
  {
    ServedAttached(s.log, s.heap[p], c);
  }

  lemma DeliveryClient(s: State, step: ClientStep)
    requires Delivery(s) && CanClient(s, step)
    ensures Delivery(DoClient(s, step))
  {
    if step.NqConnect? { DeliveryAttach(s, step.c, step.p); } else { DeliveryAlone(s, DoClient(s, step)); }
  }

  lemma OpenSeenLogged(s: State, t: State, n: Notification)
    requires OpenSeen(s) && t.log == s.log + [n] && t.pc == s.pc && t.mcp == s.mcp && t.sw == s.sw
    requires n.sessionId in s.sw || !Unstarted(s)
    requires t.unknown == s.unknown + if Opening(s, n.sessionId) then [n] else []
    ensures OpenSeen(t)
  {
    if Newborn(s).Some? { FilterSuffixSnoc(s.log, n, s.pc.from, Newborn(s).value); }
  }

  lemma DeliveryDispatch(s: State)
    requires Lifetime(s) && Flow(s) && Delivery(s) && s.irq.IrqGot?
    ensures Delivery(DoIrqDispatch(s))
  {
    var n, t := s.irq.n, DoIrqDispatch(s);
    if n.sessionId != SID_MCP && Find(s.list, s.heap, n.sessionId).None? {
      UnknownIsOpening(s);
      OpenSeenLogged(s, t, n);
      forall p | p in t.list && p in t.heap && t.heap[p].owner.Some? ensures Served(t.log, t.heap[p]) {
        ServedOther(s.log, n, s.heap[p]);
      }
    } else {
      DeliveryAlone(s, t);
    }
  }

  lemma DeliveryDeliver(s: State)
    requires Flow(s) && Delivery(s) && s.irq.IrqFound? && s.irq.p in s.heap
    ensures Delivery(DoIrqDeliver(s))
  {
    var n, t := s.irq.n, DoIrqDeliver(s);
    assert Stream(s)[0] == n;
    FirstOfStream(s);
    assert !Opening(s, n.sessionId);
    OpenSeenLogged(s, t, n);
    AllServedDeliver(s);
  }

  lemma AllServedDeliver(s: State)
    requires Ids(s) && AllServed(s) && s.irq.IrqFound? && s.irq.p in s.heap
    ensures AllServed(DoIrqDeliver(s))
  {
    var n, t := s.irq.n, DoIrqDeliver(s);
    forall p | p in t.list && p in t.heap && t.heap[p].owner.Some? ensures Served(t.log, t.heap[p]) {
      assert Served(s.log, s.heap[p]);
      if p == s.irq.p { ServedDelivered(s.log, n, s.heap[p]); } else { ServedOther(s.log, n, s.heap[p]); }
    }
  }

  lemma DeliverySw(s: State, step: SwStep)
    requires Flow(s) && Delivery(s) && CanSw(s, step)
    ensures Delivery(DoSw(s, step))
  {
    var t := DoSw(s, step);
    if step.SwStart? { FilterNone(s.log[s.pc.from..], step.sid); }
    DeliveryAlone(s, t);
  }

  lemma DeliveryKept(s: State, step: Step)
    requires Lifetime(s) && Flow(s) && Delivery(s) && Enabled(s, step)
    ensures Delivery(Apply(s, step))
  {
    match step
    case OfClient(x) => DeliveryClient(s, x);
    case OfCommand(x) => DeliveryCommand(s, x);
    case OfClose(x) => DeliveryClose(s, x);
    case OfFree(x) => DeliveryFree(s, x);
    case OfTa(x) => DeliveryTa(s, x);
    case OfIrq(x) => DeliveryIrq(s, x);
    case OfSw(x) => DeliverySw(s, x);
  }

  lemma DeliveryIrq(s: State, step: IrqStep)
    requires Lifetime(s) && Flow(s) && Delivery(s) && CanIrq(s, step)
    ensures Delivery(DoIrq(s, step))
  {
    match step
    case IrqDispatch => DeliveryDispatch(s);
    case IrqDeliver => DeliveryDeliver(s);
    case _ => DeliveryAlone(s, DoIrq(s, step));
  }
}
