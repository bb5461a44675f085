/** The session object (TrustletSession.cpp), its methods proved against the functions on values. */
module TrustletSessions {
  import opened Common
  import Spec = SessionSpec

  type Sid = Spec.Sid
  type Conn = Spec.Conn
  type Handle = Spec.Handle
  type Notification = Spec.Notification

  class TrustletSession {
    const sessionId: Sid
    var gp: bool
    var deviceConnection: Option<Conn>
    var notificationConnection: Option<Conn>
    var sessionState: Spec.TaState
    var notifications: seq<Notification>
    var buffers: map<Handle, nat>
    ghost var written: seq<Notification>
    ghost const openedAt: nat
    ghost var attachedAt: Option<nat>

    /** The object as a value. */
    ghost function Value(): Spec.Session
      reads this
    {
      Spec.Session(sessionId, gp, deviceConnection, notificationConnection, sessionState, notifications,
                   buffers, written, openedAt, attachedAt)
    }

    constructor (connection: Conn, id: Sid, ghost now: nat)
      ensures Value() == Spec.Session(id, false, Some(connection), None, Spec.TaRunning, [], map[], [], now, None)
    {
      sessionId, gp, deviceConnection, notificationConnection := id, false, Some(connection), None;
      sessionState, notifications, buffers := Spec.TaRunning, [], map[];
      written, openedAt, attachedAt := [], now, None;
    }

    method QueueNotification(n: Notification)
      modifies this
      ensures Value() == Spec.QueueNotification(old(Value()), n)
    {
      if sessionState == Spec.TaDead { return; }
      if gp && n.payload != 0 { sessionState := Spec.TaDead; }
      if sessionState == Spec.CloseSend { return; }
      notifications := notifications + [n];
    }

    /** Everything queued goes to the connection in order, if there is one. */
    method ProcessQueuedNotifications()
      modifies this
      ensures old(notificationConnection).None? ==> Value() == old(Value())
      ensures old(notificationConnection).Some? ==>
        Value() == old(Value()).(written := old(written) + old(notifications), queue := [])
    {
      if notificationConnection.None? { return; }
      ghost var start := Value();
      while notifications != []
        invariant Value() == start.(written := written, queue := notifications)
        invariant written + notifications == start.written + start.queue
        decreases |notifications|
      {
        written := written + [notifications[0]];
        notifications := notifications[1..];
      }
    }

    /** A record of the handle that is there already stays, whatever its length. */
    method AddBulkBuff(h: Handle, len: nat) returns (added: bool)
      modifies this
      ensures added <==> h !in old(buffers)
      ensures Value() == Spec.WithBuffer(old(Value()), h, len)
    {
      if h in buffers { return false; }
      buffers := buffers[h := len];
      added := true;
    }

    method RemoveBulkBuff(h: Handle) returns (removed: bool)
      modifies this
      ensures removed <==> h in old(buffers)
      ensures Value() == Spec.WithoutBuffer(old(Value()), h)
    {
      if h !in buffers {
        assert buffers - {h} == buffers;
        return false;
      }
      buffers := buffers - {h};
      removed := true;
    }

    method FindBulkBuff(h: Handle, len: nat) returns (found: bool)
      ensures found <==> Finds(Value(), h, len)
    {
      found := h in buffers && buffers[h] == len;
    }

    /** The record with the smallest handle, until there is none. */
    method PopBulkBuff() returns (h: Option<Handle>)
      modifies this
      ensures h.None? <==> old(buffers) == map[]
      ensures h.None? ==> Value() == old(Value())
      ensures h.Some? ==>
        h.value in old(buffers) && (forall g :: g in old(buffers) ==> h.value <= g)
        && Value() == Spec.WithoutBuffer(old(Value()), h.value)
    {
      if buffers == map[] { return None; }
      SmallestKey(buffers.Keys);
      var least: Handle :| least in buffers && forall g :: g in buffers ==> least <= g;
      buffers := buffers - {least};
      h := Some(least);
    }
  }

  datatype UnmapResult = Unmapped | HandleNotFound | RefusedByWorld

  /** MobiCoreDevice::unmapBulk for a session that was found: the secure world is asked only about records. */
  method UnmapBulk(session: TrustletSession, h: Handle, len: nat, accepted: bool) returns (r: UnmapResult)
    modifies session
    ensures r == HandleNotFound <==> !Finds(old(session.Value()), h, len)
    ensures r == Unmapped <==> Finds(old(session.Value()), h, len) && accepted
    ensures session.Value() ==
      if r == Unmapped then Spec.WithoutBuffer(old(session.Value()), h) else old(session.Value())
  {
    var found := session.FindBulkBuff(h, len);
    if !found { return HandleNotFound; }
    if !accepted { return RefusedByWorld; }
    var _ := session.RemoveBulkBuff(h);
    r := Unmapped;
  }

  /** The test of findBulkBuff. */
  predicate Finds(x: Spec.Session, h: Handle, len: nat) { h in x.buffers && x.buffers[h] == len }

  datatype BufferOp = AddOp(h: Handle, len: nat) | RemoveOp(h: Handle)

  function Buffered(x: Spec.Session, ops: seq<BufferOp>): Spec.Session {
    if ops == [] then x
    else
      var before := Buffered(x, ops[..|ops| - 1]);
      match ops[|ops| - 1]
      case AddOp(h, len) => Spec.WithBuffer(before, h, len)
      case RemoveOp(h) => Spec.WithoutBuffer(before, h)
  }

  /** The i-th operation recorded the buffer with this length, and no later one removed it. */
  ghost predicate RecordedAt(x: Spec.Session, ops: seq<BufferOp>, i: nat, h: Handle, len: nat) {
    && i < |ops| && ops[i] == AddOp(h, len) && h !in Buffered(x, ops[..i]).buffers
    && forall j :: i < j < |ops| ==> ops[j] != RemoveOp(h)
  }

  /**
   * After any adds and removals a buffer is found exactly when it was added with that length while
   * it had no record, and was not removed since: a second add with another length changes nothing.
   */
  lemma {:induction false} FoundExactlyWhen(x: Spec.Session, ops: seq<BufferOp>, h: Handle, len: nat)
    requires x.buffers == map[]
    ensures Finds(Buffered(x, ops), h, len) <==> exists i :: RecordedAt(x, ops, i, h, len)
  {
    if ops != [] {
      var n := |ops| - 1;
      var front := ops[..n];
      FoundExactlyWhen(x, front, h, len);
      forall i: nat | i < n
        ensures ops[n] != RemoveOp(h) ==> (RecordedAt(x, ops, i, h, len) <==> RecordedAt(x, front, i, h, len))
      {
        assert front[..i] == ops[..i];
      }
      assert RecordedAt(x, ops, n, h, len) <==> ops[n] == AddOp(h, len) && h !in Buffered(x, front).buffers;
    }
  }

  lemma {:induction false} SmallestKey(keys: set<Handle>)
    requires keys != {}
    ensures exists h :: h in keys && forall g :: g in keys ==> h <= g
  {
    var k :| k in keys;
    var rest := keys - {k};
    if rest == {} {
      assert keys == {k};
    } else {
      SmallestKey(rest);
      var m :| m in rest && forall g :: g in rest ==> m <= g;
      var h := if k <= m then k else m;
      assert forall g :: g in keys ==> g == k || g in rest;
      assert h in keys && forall g :: g in keys ==> h <= g;
    }
  }
}
