/**
 * A trustlet session object as a value (TrustletSession.h), and the notification rule of
 * TrustletSession.cpp as functions on it.  The class TrustletSession and the step machine Engine
 * are both stated with these functions.
 */
module SessionSpec {
  import opened Common

  type Sid = nat
  type Conn = nat
  type Handle = nat

  /** Session id of the MCP channel itself. */
  const SID_MCP: Sid := 0

  /** One element of the notification queue: payload 0 is plain, any other payload ends the TA. */
  datatype Notification = Notification(sessionId: Sid, payload: int)

  datatype TaState = TaRunning | TaDead | CloseSend

  /**
   * The fields of a session object.  The last three are history, which nothing branches on:
   * what was written to the notification connection, and where in the handler's log the OPEN
   * command was issued and the first NQ_CONNECT was handled.
   */
  datatype Session = Session(
    sessionId: Sid,
    gp: bool,
    owner: Option<Conn>,
    nq: Option<Conn>,
    state: TaState,
    queue: seq<Notification>,
    buffers: map<Handle, nat>,
    written: seq<Notification>,
    openedAt: nat,
    attachedAt: Option<nat>)

  /** queueNotification: mark a GP session dead on an exit payload, then queue unless closing. */
  function QueueNotification(s: Session, n: Notification): Session {
    if s.state == TaDead then s
    else
      var marked := if s.gp && n.payload != 0 then s.(state := TaDead) else s;
      if marked.state == CloseSend then marked else marked.(queue := marked.queue + [n])
  }

  /** addBulkBuff: an existing record of the handle stays. */
  function WithBuffer(session: Session, h: Handle, len: nat): Session {
    if h in session.buffers then session else session.(buffers := session.buffers[h := len])
  }

  function WithoutBuffer(session: Session, h: Handle): Session {
    session.(buffers := session.buffers - {h})
  }

  /** The loop of openSession that hands the early notifications to the new session. */
  function QueueAll(s: Session, ns: seq<Notification>): (r: Session)
    ensures r == s.(queue := r.queue, state := r.state)
    ensures r.state == s.state || r.state == TaDead
  {
    if ns == [] then s
    else QueueNotification(QueueAll(s, ns[..|ns| - 1]), ns[|ns| - 1])
  }

  /** The notifications of one session in a stream, in order. */
  function Filter(ns: seq<Notification>, sid: Sid): (r: seq<Notification>)
    ensures forall n :: n in r ==> n in ns && n.sessionId == sid
  {
    if ns == [] then []
    else
      var n := ns[|ns| - 1];
      Filter(ns[..|ns| - 1], sid) + if n.sessionId == sid then [n] else []
  }

  ghost predicate HasExit(ns: seq<Notification>) {
    exists i :: 0 <= i < |ns| && ns[i].payload != 0
  }

  /** A stream cut just after its first exit notification. */
  ghost function Cut(ns: seq<Notification>): seq<Notification> {
    if ns == [] then []
    else
      var front := ns[..|ns| - 1];
      if HasExit(front) then Cut(front) else ns
  }

  /** What Cut means: a prefix, whole when there is no exit, else ending in the first exit. */
  lemma {:induction false} CutIsFirstExitPrefix(ns: seq<Notification>)
    ensures Cut(ns) <= ns
    ensures !HasExit(ns) ==> Cut(ns) == ns
    ensures HasExit(ns) ==>
      var c := Cut(ns);
      c != [] && c[|c| - 1].payload != 0 && !HasExit(c[..|c| - 1])
  {
    if ns != [] {
      var front := ns[..|ns| - 1];
      CutIsFirstExitPrefix(front);
      if HasExit(front) {
        assert Cut(ns) == Cut(front);
        assert front <= ns;
      } else if HasExit(ns) {
        assert forall i :: 0 <= i < |front| ==> ns[i] == front[i];
      }
    }
  }

  lemma FilterSnoc(ns: seq<Notification>, n: Notification, sid: Sid)
    ensures Filter(ns + [n], sid) == Filter(ns, sid) + if n.sessionId == sid then [n] else []
  {
    assert (ns + [n])[..|ns|] == ns;
  }

  /** Extending a log extends what one session sees of any suffix of it. */
  lemma FilterSuffixSnoc(log: seq<Notification>, n: Notification, from: nat, sid: Sid)
    requires from <= |log|
    ensures (log + [n])[from..] == log[from..] + [n]
    ensures Filter((log + [n])[from..], sid)
         == Filter(log[from..], sid) + if n.sessionId == sid then [n] else []
  {
    assert (log + [n])[from..] == log[from..] + [n];
    FilterSnoc(log[from..], n, sid);
  }

  lemma CutSnoc(ns: seq<Notification>, n: Notification)
    ensures Cut(ns + [n]) == if HasExit(ns) then Cut(ns) else Cut(ns) + [n]
    ensures HasExit(ns + [n]) <==> HasExit(ns) || n.payload != 0
  {
    assert (ns + [n])[..|ns|] == ns;
    CutIsFirstExitPrefix(ns);
    assert (ns + [n])[|ns|] == n;
    if HasExit(ns) {
      var i :| 0 <= i < |ns| && ns[i].payload != 0;
      assert (ns + [n])[i] == ns[i];
    }
    if HasExit(ns + [n]) && n.payload == 0 {
      var i :| 0 <= i < |ns + [n]| && (ns + [n])[i].payload != 0;
      assert ns[i] == (ns + [n])[i];
    }
  }

  /**
   * Handing a whole stream to a fresh running session: a legacy session queues all of it, a GP
   * session queues it up to and including the first exit and is dead exactly when there was one.
   */
  lemma {:induction false} QueueAllCuts(s: Session, ns: seq<Notification>)
    requires s.state == TaRunning && s.queue == []
    ensures QueueAll(s, ns) == s.(
        queue := if s.gp then Cut(ns) else ns,
        state := if s.gp && HasExit(ns) then TaDead else TaRunning)
  {
    if ns != [] {
      var front, n := ns[..|ns| - 1], ns[|ns| - 1];
      QueueAllCuts(s, front);
      assert front + [n] == ns;
      CutSnoc(front, n);
    }
  }

  /**
   * Handing a stream to a session that is being closed: only the first exit of a GP session is
   * queued, and it makes the session dead; a dead session takes nothing any more.
   */
  lemma {:induction false} QueueAllClosing(s: Session, ns: seq<Notification>)
    requires s.state != TaRunning
    ensures HasExit(ns) ==> Cut(ns) != []
    ensures QueueAll(s, ns) ==
      if s.gp && s.state == CloseSend && HasExit(ns)
        then s.(queue := s.queue + [Cut(ns)[|Cut(ns)| - 1]], state := TaDead)
        else s
  {
    if ns != [] {
      var front, n := ns[..|ns| - 1], ns[|ns| - 1];
      QueueAllClosing(s, front);
      assert front + [n] == ns;
      CutSnoc(front, n);
      CutIsFirstExitPrefix(front);
    }
    CutIsFirstExitPrefix(ns);
  }
}
