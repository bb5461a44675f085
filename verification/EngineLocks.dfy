/**
 * Where every kernel lock comes from: a buffer has one lock for each session with a record of it,
 * one for an OPEN in progress, and one for each time an error return or a second map left one.
 */
module EngineLocks {
  import opened Common
  import opened SessionSpec
  import opened Engine
  import opened EngineLifetime
  import opened EngineStream
  import opened EngineMemory

  ghost function RecordOf(s: State, sid: Sid, h: Handle): nat { if Recorded(s, sid, h) then 1 else 0 }

  /** The sessions with ids below n that have a record of the buffer. */
  ghost function Records(s: State, h: Handle, n: nat): nat {
    if n == 0 then 0 else Records(s, h, n - 1) + RecordOf(s, n - 1, h)
  }

  /** The lock of a session that is being opened. */
  function OpenLock(s: State, h: Handle): nat {
    if s.pc.OpenWait? && s.pc.tci == Some(h) then 1 else 0
  }

  ghost predicate Bounded(s: State, n: nat) { forall p :: p in s.heap ==> s.heap[p].sessionId < n }

  ghost predicate Exact(s: State, h: Handle) {
    forall n :: Bounded(s, n) ==> Records(s, h, n) + OpenLock(s, h) + s.kept[h] == s.locks[h]
  }

  ghost predicate Accounted(s: State) { forall h :: Exact(s, h) }

  // ---------------------------------------------------------------- sums of records

  lemma {:induction false} RecordsSame(s: State, t: State, h: Handle, n: nat)
    requires forall k :: 0 <= k < n ==> RecordOf(t, k, h) == RecordOf(s, k, h)
    ensures Records(t, h, n) == Records(s, h, n)
  {
    if n > 0 { RecordsSame(s, t, h, n - 1); }
  }

  lemma {:induction false} RecordsOne(s: State, t: State, h: Handle, sid: Sid, n: nat)
    requires sid < n
    requires forall k :: 0 <= k < n && k != sid ==> RecordOf(t, k, h) == RecordOf(s, k, h)
    ensures Records(t, h, n) - Records(s, h, n) == RecordOf(t, sid, h) - RecordOf(s, sid, h)
  {
    if n - 1 == sid { RecordsSame(s, t, h, n - 1); } else { RecordsOne(s, t, h, sid, n - 1); }
  }

  lemma {:induction false} RecordsBeyond(s: State, h: Handle, m: nat, n: nat)
    requires m <= n && Bounded(s, m)
    ensures Records(s, h, n) == Records(s, h, m)
  {
    if m < n { RecordsBeyond(s, h, m, n - 1); }
  }

  ghost predicate AllBelow(s: State, ps: set<Ptr>, n: nat) {
    forall p :: p in ps && p in s.heap ==> s.heap[p].sessionId < n
  }

  lemma {:induction false} BoundExists(s: State, ps: set<Ptr>)
    ensures exists n: nat :: AllBelow(s, ps, n)
  {
    if ps == {} {
      assert AllBelow(s, ps, 0);
    } else {
      var q :| q in ps;
      BoundExists(s, ps - {q});
      var m: nat :| AllBelow(s, ps - {q}, m);
      var n := if q in s.heap && s.heap[q].sessionId >= m then s.heap[q].sessionId + 1 else m;
      assert AllBelow(s, ps, n);
    }
  }

  lemma SomeBound(s: State)
    ensures exists n :: Bounded(s, n)
  {
    BoundExists(s, s.heap.Keys);
    var n: nat :| AllBelow(s, s.heap.Keys, n);
    assert Bounded(s, n);
  }

  // ---------------------------------------------------------------- steps

  ghost predicate SameRecords(s: State, t: State) {
    && t.heap.Keys == s.heap.Keys
    && (forall p :: p in s.heap ==>
          t.heap[p].sessionId == s.heap[p].sessionId && t.heap[p].buffers == s.heap[p].buffers)
  }

  lemma RecordAlone(s: State, t: State, sid: Sid, h: Handle)
    requires SameRecords(s, t)
    ensures RecordOf(t, sid, h) == RecordOf(s, sid, h)
  {
    if Recorded(t, sid, h) {
      var p :| p in t.heap && t.heap[p].sessionId == sid && h in t.heap[p].buffers;
      assert p in s.heap && s.heap[p].sessionId == sid && h in s.heap[p].buffers;
    }
    if Recorded(s, sid, h) {
      var p :| p in s.heap && s.heap[p].sessionId == sid && h in s.heap[p].buffers;
      assert p in t.heap && t.heap[p].sessionId == sid && h in t.heap[p].buffers;
    }
  }

  lemma AccountedAlone(s: State, t: State)
    requires Accounted(s) && SameRecords(s, t)
    requires forall h :: t.locks[h] - OpenLock(t, h) - t.kept[h] == s.locks[h] - OpenLock(s, h) - s.kept[h]
    ensures Accounted(t)
  {
    forall h: Handle ensures Exact(t, h) {
      assert Exact(s, h);
      forall n | Bounded(t, n) ensures Records(t, h, n) + OpenLock(t, h) + t.kept[h] == t.locks[h] {
        assert Bounded(s, n);
        forall k: nat | k < n ensures RecordOf(t, k, h) == RecordOf(s, k, h) { RecordAlone(s, t, k, h); }
        RecordsSame(s, t, h, n);
      }
    }
  }

  lemma AccountedClient(s: State, step: ClientStep)
    requires Accounted(s) && CanClient(s, step)
    ensures Accounted(DoClient(s, step))
  {
    AccountedAlone(s, DoClient(s, step));
  }

  lemma AccountedClose(s: State, step: CloseStep)
    requires Accounted(s) && CanClose(s, step)
    ensures Accounted(DoClose(s, step))
  {
    AccountedAlone(s, DoClose(s, step));
  }

  lemma AccountedTa(s: State, step: TaStep)
    requires Accounted(s) && CanTa(s, step)
    ensures Accounted(DoTa(s, step))
  {
    AccountedAlone(s, DoTa(s, step));
  }

  lemma AccountedDeliver(s: State)
    requires Accounted(s) && s.irq.IrqFound? && s.irq.p in s.heap
    ensures Accounted(DoIrqDeliver(s))
  {
    AccountedAlone(s, DoIrqDeliver(s));
  }

  lemma AccountedIrq(s: State, step: IrqStep)
    requires Accounted(s) && CanIrq(s, step)
    ensures Accounted(DoIrq(s, step))
  {
    if step.IrqDeliver? { AccountedDeliver(s); } else { AccountedAlone(s, DoIrq(s, step)); }
  }

  lemma AccountedSw(s: State, step: SwStep)
    requires Accounted(s) && CanSw(s, step)
    ensures Accounted(DoSw(s, step))
  {
    AccountedAlone(s, DoSw(s, step));
  }

  /** The one object gains or loses one record, and the kernel one lock. */
  lemma AccountedOneRecord(s: State, t: State, p: Ptr, g: Handle)
    requires Accounted(s) && Ids(s) && OneRecord(s, t, p, g)
    requires forall h :: OpenLock(t, h) == 0 && OpenLock(s, h) == 0
    requires t.locks == if g in t.heap[p].buffers then s.locks + multiset{g} else s.locks - multiset{g}
    requires t.kept == s.kept && (g in t.heap[p].buffers <==> g !in s.heap[p].buffers)
    ensures Accounted(t)
  {
    forall h: Handle ensures Exact(t, h) {
      assert Exact(s, h);
      forall n | Bounded(t, n) ensures Records(t, h, n) + OpenLock(t, h) + t.kept[h] == t.locks[h] {
        assert Bounded(s, n);
        ExactOneRecord(s, t, p, g, h, n);
      }
    }
  }

  lemma ExactOneRecord(s: State, t: State, p: Ptr, g: Handle, h: Handle, n: nat)
    requires Ids(s) && OneRecord(s, t, p, g) && Bounded(s, n)
    requires t.locks == if g in t.heap[p].buffers then s.locks + multiset{g} else s.locks - multiset{g}
    requires g in t.heap[p].buffers <==> g !in s.heap[p].buffers
    requires Records(s, h, n) + s.kept[h] == s.locks[h] && t.kept == s.kept
    ensures Records(t, h, n) + t.kept[h] == t.locks[h]
  {
    var sid := s.heap[p].sessionId;
    forall k: nat | k < n && (k != sid || h != g) ensures RecordOf(t, k, h) == RecordOf(s, k, h) {
      RecordElsewhere(s, t, p, g, k, h);
    }
    if h == g {
      RecordAt(s, p, g);
      RecordAt(t, p, g);
      RecordsOne(s, t, h, sid, n);
      RecordsPositive(s, h, sid, n);
    } else {
      RecordsSame(s, t, h, n);
    }
  }

  /** With distinct ids, a session has a record exactly when its object has. */
  lemma RecordAt(s: State, p: Ptr, g: Handle)
    requires p in s.heap
    requires forall q, r :: q in s.heap && r in s.heap && q < r ==> s.heap[q].sessionId != s.heap[r].sessionId
    ensures RecordOf(s, s.heap[p].sessionId, g) == if g in s.heap[p].buffers then 1 else 0
  {
    if Recorded(s, s.heap[p].sessionId, g) {
      var q :| q in s.heap && s.heap[q].sessionId == s.heap[p].sessionId && g in s.heap[q].buffers;
      assert q == p;
    }
  }

  lemma RecordElsewhere(s: State, t: State, p: Ptr, g: Handle, sid: Sid, h: Handle)
    requires OneRecord(s, t, p, g) && (sid != s.heap[p].sessionId || h != g)
    ensures RecordOf(t, sid, h) == RecordOf(s, sid, h)
  {
    if Recorded(t, sid, h) {
      var q :| q in t.heap && t.heap[q].sessionId == sid && h in t.heap[q].buffers;
      assert q in s.heap && s.heap[q].sessionId == sid && h in s.heap[q].buffers;
    }
    if Recorded(s, sid, h) {
      var q :| q in s.heap && s.heap[q].sessionId == sid && h in s.heap[q].buffers;
      assert q in t.heap && t.heap[q].sessionId == sid && h in t.heap[q].buffers;
    }
  }

  lemma {:induction false} RecordsPositive(s: State, h: Handle, sid: Sid, n: nat)
    requires sid < n
    ensures Records(s, h, n) >= RecordOf(s, sid, h)
  {
    if n - 1 != sid { RecordsPositive(s, h, sid, n - 1); }
  }

  lemma AccountedMapIssue(s: State, c: Conn, p: Ptr, h: Handle, len: nat)
    requires Accounted(s) && Ids(s) && s.pc.Free? && p in s.heap
    ensures Accounted(DoMapIssue(s, c, p, h, len))
  {
    if h in s.heap[p].buffers { AccountedAlone(s, DoMapIssue(s, c, p, h, len)); }
    else { AccountedOneRecord(s, DoMapIssue(s, c, p, h, len), p, h); }
  }

  lemma AccountedUnmapDone(s: State)
    requires Accounted(s) && Ids(s) && InProgress(s) && s.pc.UnmapWait? && s.pc.p in s.heap && AnswerReady(s)
    ensures Accounted(DoUnmapDone(s))
  {
    if s.mcp.answer == Ok { AccountedOneRecord(s, DoUnmapDone(s), s.pc.p, s.pc.h); }
    else { AccountedAlone(s, DoUnmapDone(s)); }
  }

  lemma AccountedPop(s: State, h: Handle)
    requires Accounted(s) && Ids(s) && CanFree(s, PopBuffer(h))
    ensures Accounted(DoFree(s, PopBuffer(h)))
  {
    AccountedOneRecord(s, DoFree(s, PopBuffer(h)), s.pc.p, h);
  }

  lemma AccountedOpened(s: State, at: Ptr)
    requires Accounted(s) && s.pc.OpenWait? && AnswerReady(s) && s.mcp.answer.Opened? && at !in s.heap
    requires forall p :: p in s.heap ==> s.heap[p].sessionId != s.mcp.answer.sid
    ensures Accounted(DoOpenDone(s, at))
  {
    var t, x := DoOpenDone(s, at), OpenedSession(s);
    assert x.buffers == CreatedSession(s).buffers && x.sessionId == s.mcp.answer.sid;
    forall h: Handle ensures Exact(t, h) {
      assert Exact(s, h);
      forall n | Bounded(t, n) ensures Records(t, h, n) + OpenLock(t, h) + t.kept[h] == t.locks[h] {
        BoundedBefore(s, t, at, n);
        forall k: nat | k < n && k != x.sessionId ensures RecordOf(t, k, h) == RecordOf(s, k, h) {
          RecordAdded(s, t, at, x, k, h);
        }
        RecordAdded(s, t, at, x, x.sessionId, h);
        RecordsOne(s, t, h, x.sessionId, n);
      }
    }
  }

  lemma BoundedBefore(s: State, t: State, at: Ptr, n: nat)
    requires at !in s.heap && at in t.heap && t.heap == s.heap[at := t.heap[at]] && Bounded(t, n)
    ensures Bounded(s, n) && t.heap[at].sessionId < n
  {
    forall p | p in s.heap ensures s.heap[p].sessionId < n { assert p in t.heap && t.heap[p] == s.heap[p]; }
  }

  lemma RecordAdded(s: State, t: State, at: Ptr, x: Session, sid: Sid, h: Handle)
    requires at !in s.heap && t.heap == s.heap[at := x]
    requires forall p :: p in s.heap ==> s.heap[p].sessionId != x.sessionId
    ensures sid != x.sessionId ==> RecordOf(t, sid, h) == RecordOf(s, sid, h)
    ensures sid == x.sessionId ==> RecordOf(s, sid, h) == 0
    ensures sid == x.sessionId ==> RecordOf(t, sid, h) == if h in x.buffers then 1 else 0
  {
    if Recorded(s, sid, h) {
      var p :| p in s.heap && s.heap[p].sessionId == sid && h in s.heap[p].buffers;
      assert p in t.heap && t.heap[p].sessionId == sid && h in t.heap[p].buffers;
    }
    assert at in t.heap && t.heap[at] == x;
  }

  /** A refused OPEN gives the lock of its buffer back. */
  lemma AccountedRefused(s: State, at: Ptr)
    requires Accounted(s) && s.pc.OpenWait? && AnswerReady(s) && !s.mcp.answer.Opened? && at !in s.heap
    ensures Accounted(DoOpenDone(s, at))
  {
    if s.pc.tci.Some? {
      SomeBound(s);
      var n :| Bounded(s, n);
      assert Exact(s, s.pc.tci.value);
      assert Records(s, s.pc.tci.value, n) + OpenLock(s, s.pc.tci.value) <= s.locks[s.pc.tci.value];
    }
    AccountedAlone(s, DoOpenDone(s, at));
  }

  lemma AccountedDelete(s: State)
    requires Accounted(s) && CanFree(s, DeleteSession) && s.pc.p in s.heap && s.heap[s.pc.p].buffers == map[]
    ensures Accounted(DoFree(s, DeleteSession))
  {
    var t := DoFree(s, DeleteSession);
    SomeBound(s);
    var bound :| Bounded(s, bound);
    forall h: Handle ensures Exact(t, h) {
      assert Exact(s, h);
      forall k: nat ensures RecordOf(t, k, h) == RecordOf(s, k, h) { RecordDeleted(s, t, k, h); }
      forall n | Bounded(t, n) ensures Records(t, h, n) + OpenLock(t, h) + t.kept[h] == t.locks[h] {
        var m := if n < bound then bound else n;
        assert Bounded(s, m);
        RecordsSame(s, t, h, m);
        RecordsBeyond(t, h, n, m);
      }
    }
  }

  lemma RecordDeleted(s: State, t: State, sid: Sid, h: Handle)
    requires s.pc.Delete? && s.pc.p in s.heap && s.heap[s.pc.p].buffers == map[] && t.heap == s.heap - {s.pc.p}
    ensures RecordOf(t, sid, h) == RecordOf(s, sid, h)
  {
    if Recorded(s, sid, h) {
      var p :| p in s.heap && s.heap[p].sessionId == sid && h in s.heap[p].buffers;
      assert p in t.heap && t.heap[p].sessionId == sid && h in t.heap[p].buffers;
    }
  }

  // ---------------------------------------------------------------- all steps

  lemma AccountedCommand(s: State, step: CommandStep)
    requires Ids(s) && Registered(s) && InProgress(s) && Accounted(s) && CanCommand(s, step)
    ensures Accounted(DoCommand(s, step))
  {
    if step.OpenDone? {
      if s.mcp.answer.Opened? { AccountedOpened(s, step.at); } else { AccountedRefused(s, step.at); }
    }
    else if step.MapIssue? { AccountedMapIssue(s, step.c, FindSession(s, step.c, step.sid).value, step.h, step.len); }
    else if step.UnmapDone? { AccountedUnmapDone(s); }
    else { AccountedAlone(s, DoCommand(s, step)); }
  }

  lemma AccountedFree(s: State, step: FreeStep)
    requires Lifetime(s) && Ids(s) && Accounted(s) && CanFree(s, step)
    ensures Accounted(DoFree(s, step))
  {
    match step
    case PopBuffer(h) => AccountedPop(s, h);
    case DeleteSession => AccountedDelete(s);
    case NoBuffers => AccountedAlone(s, DoFree(s, NoBuffers));
    case UnlinkSession => AccountedAlone(s, DoFree(s, UnlinkSession));
  }

  lemma AccountedKept(s: State, step: Step)
    requires Lifetime(s) && Flow(s) && InProgress(s) && Accounted(s) && Enabled(s, step)
    ensures Accounted(Apply(s, step))
  {
    match step
    case OfClient(x) => AccountedClient(s, x);
    case OfCommand(x) => AccountedCommand(s, x);
    case OfClose(x) => AccountedClose(s, x);
    case OfFree(x) => AccountedFree(s, x);
    case OfTa(x) => AccountedTa(s, x);
    case OfIrq(x) => AccountedIrq(s, x);
    case OfSw(x) => AccountedSw(s, x);
  }
}
