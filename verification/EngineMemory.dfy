/**
 * Kernel lock accounting over all interleavings: a shared buffer stays locked for as long as the
 * secure world can see it, whatever the order of opens, maps, unmaps, closes and error returns.
 */
module EngineMemory {
  import opened Common
  import opened SessionSpec
  import opened Engine
  import opened EngineLifetime
  import opened EngineStream

  /** How often the session has the buffer mapped in the secure world. */
  function Mapped(s: State, sid: Sid, h: Handle): nat {
    if sid in s.sw then s.sw[sid].maps[h] else 0
  }

  /** The session's buffer map has a record of the buffer. */
  ghost predicate Recorded(s: State, sid: Sid, h: Handle) {
    exists p :: p in s.heap && s.heap[p].sessionId == sid && h in s.heap[p].buffers
  }

  /** The locks a session needs on a buffer: one per mapping, and one if it has a record of it. */
  ghost function Claim(s: State, sid: Sid, h: Handle): nat {
    if Mapped(s, sid, h) == 0 && Recorded(s, sid, h) then 1 else Mapped(s, sid, h)
  }

  /** The claims of all session ids below n. */
  ghost function Claims(s: State, h: Handle, n: nat): nat {
    if n == 0 then 0 else Claims(s, h, n - 1) + Claim(s, n - 1, h)
  }

  /** A lock taken for, or not yet given back by, the command in progress. */
  function Reserved(s: State, h: Handle): nat {
    match s.pc
    case OpenWait(_, _, tci, _, _) =>
      if tci == Some(h) && Newborn(s).None? then 1 else 0
    case MapWait(_, p, g) =>
      if g == h && s.mcp.Request? && p in s.heap && Mapped(s, s.heap[p].sessionId, h) > 0 then 1 else 0
    case UnmapWait(_, p, g) =>
      if g == h && s.mcp == Response(Ok) && p in s.heap && Mapped(s, s.heap[p].sessionId, h) > 0
      then 1 else 0
    case _ => 0
  }

  /** The kernel lock count of a buffer covers all claims on it and what is reserved. */
  ghost predicate Covered(s: State, h: Handle) {
    forall n :: Claims(s, h, n) + Reserved(s, h) <= s.locks[h]
  }

  ghost predicate LocksCover(s: State) { forall h :: Covered(s, h) }

  /** What the command in progress knows about the buffer it works on. */
  predicate InProgress(s: State) {
    && (s.pc.MapWait? || s.pc.UnmapWait? ==> s.pc.p in s.heap && s.pc.h in s.heap[s.pc.p].buffers)
    && (Newborn(s).Some? && s.pc.tci.Some? ==> Mapped(s, Newborn(s).value, s.pc.tci.value) > 0)
  }

  // ---------------------------------------------------------------- sums of claims

  /** No claim grows. */
  lemma {:induction false} ClaimsSame(s: State, t: State, h: Handle, n: nat)
    requires forall k :: 0 <= k < n ==> Claim(t, k, h) <= Claim(s, k, h)
    ensures Claims(t, h, n) <= Claims(s, h, n)
  {
    if n > 0 { ClaimsSame(s, t, h, n - 1); }
  }

  /** One claim grows by at most one. */
  lemma {:induction false} ClaimsUp(s: State, t: State, h: Handle, sid: Sid, n: nat)
    requires forall k :: 0 <= k < n && k != sid ==> Claim(t, k, h) <= Claim(s, k, h)
    requires Claim(t, sid, h) <= Claim(s, sid, h) + 1
    ensures Claims(t, h, n) <= Claims(s, h, n) + 1
  {
    if n > 0 {
      if n - 1 == sid { ClaimsSame(s, t, h, n - 1); } else { ClaimsUp(s, t, h, sid, n - 1); }
    }
  }

  lemma {:induction false} ClaimsGrow(s: State, h: Handle, m: nat, n: nat)
    requires m <= n
    ensures Claims(s, h, m) <= Claims(s, h, n)
  {
    if m < n { ClaimsGrow(s, h, m, n - 1); }
  }

  /** One claim shrinks: the sum does too, once it includes that session. */
  lemma {:induction false} ClaimsDown(s: State, t: State, h: Handle, sid: Sid, n: nat)
    requires n > sid
    requires forall k :: 0 <= k < n && k != sid ==> Claim(t, k, h) <= Claim(s, k, h)
    requires Claim(t, sid, h) + 1 <= Claim(s, sid, h)
    ensures Claims(t, h, n) + 1 <= Claims(s, h, n)
  {
    if n - 1 == sid { ClaimsSame(s, t, h, n - 1); } else { ClaimsDown(s, t, h, sid, n - 1); }
  }

  // ---------------------------------------------------------------- one buffer at a time

  lemma CoveredSame(s: State, t: State, h: Handle)
    requires Covered(s, h)
    requires forall k :: Claim(t, k, h) <= Claim(s, k, h)
    requires t.locks[h] + Reserved(s, h) >= s.locks[h] + Reserved(t, h)
    ensures Covered(t, h)
  {
    forall n: nat ensures Claims(t, h, n) + Reserved(t, h) <= t.locks[h] {
      ClaimsSame(s, t, h, n);
      assert Claims(s, h, n) + Reserved(s, h) <= s.locks[h];
    }
  }

  lemma CoveredUp(s: State, t: State, h: Handle, sid: Sid)
    requires Covered(s, h)
    requires forall k :: k != sid ==> Claim(t, k, h) <= Claim(s, k, h)
    requires Claim(t, sid, h) <= Claim(s, sid, h) + 1
    requires t.locks[h] + Reserved(s, h) >= s.locks[h] + Reserved(t, h) + 1
    ensures Covered(t, h)
  {
    forall n: nat ensures Claims(t, h, n) + Reserved(t, h) <= t.locks[h] {
      ClaimsUp(s, t, h, sid, n);
      assert Claims(s, h, n) + Reserved(s, h) <= s.locks[h];
    }
  }

  lemma CoveredDown(s: State, t: State, h: Handle, sid: Sid)
    requires Covered(s, h)
    requires forall k :: k != sid ==> Claim(t, k, h) <= Claim(s, k, h)
    requires Claim(t, sid, h) + 1 <= Claim(s, sid, h)
    requires t.locks[h] + Reserved(s, h) + 1 >= s.locks[h] + Reserved(t, h)
    ensures Covered(t, h)
  {
    forall n: nat ensures Claims(t, h, n) + Reserved(t, h) <= t.locks[h] {
      var m := if n > sid then n else sid + 1;
      ClaimsGrow(t, h, n, m);
      ClaimsDown(s, t, h, sid, m);
      assert Claims(s, h, m) + Reserved(s, h) <= s.locks[h];
    }
  }

  // ---------------------------------------------------------------- steps that move no buffer

  ghost predicate SameBuffers(s: State, t: State) {
    && t.heap.Keys <= s.heap.Keys
    && (forall p :: p in t.heap ==>
          t.heap[p].sessionId == s.heap[p].sessionId && t.heap[p].buffers == s.heap[p].buffers)
  }

  ghost predicate SameMaps(s: State, t: State) {
    t.sw.Keys == s.sw.Keys && forall sid :: sid in s.sw ==> t.sw[sid].maps == s.sw[sid].maps
  }

  lemma ClaimQuiet(s: State, t: State, sid: Sid, h: Handle)
    requires SameBuffers(s, t) && SameMaps(s, t)
    ensures Claim(t, sid, h) <= Claim(s, sid, h)
  {
    if Recorded(t, sid, h) {
      var p :| p in t.heap && t.heap[p].sessionId == sid && h in t.heap[p].buffers;
      assert p in s.heap && s.heap[p].sessionId == sid && h in s.heap[p].buffers;
    }
  }

  lemma CoverQuiet(s: State, t: State)
    requires LocksCover(s) && SameBuffers(s, t) && SameMaps(s, t)
    requires forall h :: t.locks[h] + Reserved(s, h) >= s.locks[h] + Reserved(t, h)
    ensures LocksCover(t)
  {
    forall h: Handle ensures Covered(t, h) {
      forall k ensures Claim(t, k, h) <= Claim(s, k, h) { ClaimQuiet(s, t, k, h); }
      assert Covered(s, h);
      CoveredSame(s, t, h);
    }
  }

  lemma CoverClient(s: State, step: ClientStep)
    requires LocksCover(s) && CanClient(s, step)
    ensures LocksCover(DoClient(s, step))
  {
    CoverQuiet(s, DoClient(s, step));
  }

  lemma CoverOtherCommand(s: State, step: CommandStep)
    requires LocksCover(s) && CanCommand(s, step)
    requires step.KeepLock? || step.OpenIssue? || step.MapDone? || step.UnmapIssue?
    ensures LocksCover(DoCommand(s, step))
  {
    CoverQuiet(s, DoCommand(s, step));
  }

  lemma CoverClose(s: State, step: CloseStep)
    requires LocksCover(s) && CanClose(s, step)
    ensures LocksCover(DoClose(s, step))
  {
    CoverQuiet(s, DoClose(s, step));
  }

  lemma CoverFree(s: State, step: FreeStep)
    requires LocksCover(s) && CanFree(s, step) && !step.PopBuffer?
    ensures LocksCover(DoFree(s, step))
  {
    CoverQuiet(s, DoFree(s, step));
  }

  lemma CoverTa(s: State, step: TaStep)
    requires LocksCover(s) && CanTa(s, step)
    ensures LocksCover(DoTa(s, step))
  {
    CoverQuiet(s, DoTa(s, step));
  }

  lemma CoverDeliver(s: State)
    requires LocksCover(s) && s.irq.IrqFound? && s.irq.p in s.heap
    ensures LocksCover(DoIrqDeliver(s))
  {
    CoverQuiet(s, DoIrqDeliver(s));
  }

  lemma CoverIrq(s: State, step: IrqStep)
    requires LocksCover(s) && CanIrq(s, step)
    ensures LocksCover(DoIrq(s, step))
  {
    if step.IrqDeliver? { CoverDeliver(s); } else { CoverQuiet(s, DoIrq(s, step)); }
  }

  lemma CoverNotify(s: State, sid: Sid, payload: int)
    requires LocksCover(s) && sid in s.sw
    ensures LocksCover(DoSw(s, SwNotify(sid, payload)))
  {
    CoverQuiet(s, DoSw(s, SwNotify(sid, payload)));
  }

  // ---------------------------------------------------------------- steps that do

  lemma CoverOpenDone(s: State, at: Ptr)
    requires LocksCover(s) && InProgress(s) && at !in s.heap
    requires s.pc.OpenWait? && AnswerReady(s)
    ensures LocksCover(DoOpenDone(s, at))
  {
    var t := DoOpenDone(s, at);
    if s.mcp.answer.Opened? {
      var x := OpenedSession(s);
      assert x.buffers == CreatedSession(s).buffers && x.sessionId == s.mcp.answer.sid;
      forall h: Handle ensures Covered(t, h) {
        forall k ensures Claim(t, k, h) <= Claim(s, k, h) { ClaimAdded(s, t, at, x, k, h); }
        assert Covered(s, h);
        CoveredSame(s, t, h);
      }
    } else {
      CoverQuiet(s, t);
    }
  }

  lemma ClaimAdded(s: State, t: State, at: Ptr, x: Session, sid: Sid, h: Handle)
    requires at !in s.heap && t.heap == s.heap[at := x] && t.sw == s.sw
    requires h in x.buffers ==> Mapped(s, x.sessionId, h) > 0
    ensures Claim(t, sid, h) <= Claim(s, sid, h)
  {
    if Recorded(t, sid, h) && Mapped(s, sid, h) == 0 {
      var p :| p in t.heap && t.heap[p].sessionId == sid && h in t.heap[p].buffers;
      assert p in s.heap && s.heap[p].sessionId == sid && h in s.heap[p].buffers;
    }
  }

  /** Only the one object changes, and only in its record of one buffer. */
  ghost predicate OneRecord(s: State, t: State, p: Ptr, g: Handle) {
    && p in s.heap && t.heap.Keys == s.heap.Keys && t.sw == s.sw
    && (forall q :: q in s.heap ==> t.heap[q].sessionId == s.heap[q].sessionId)
    && (forall q, h :: q in s.heap && (q != p || h != g) ==>
          (h in t.heap[q].buffers <==> h in s.heap[q].buffers))
  }

  lemma ClaimElsewhere(s: State, t: State, p: Ptr, g: Handle, sid: Sid, h: Handle)
    requires OneRecord(s, t, p, g) && (sid != s.heap[p].sessionId || h != g)
    ensures Claim(t, sid, h) == Claim(s, sid, h)
  {
    if Recorded(t, sid, h) {
      var q :| q in t.heap && t.heap[q].sessionId == sid && h in t.heap[q].buffers;
      assert q in s.heap && s.heap[q].sessionId == sid && h in s.heap[q].buffers;
    }
    if Recorded(s, sid, h) {
      var q :| q in s.heap && s.heap[q].sessionId == sid && h in s.heap[q].buffers;
      assert q in t.heap && t.heap[q].sessionId == sid && h in t.heap[q].buffers;
    }
  }

  lemma CoverElsewhere(s: State, t: State, p: Ptr, g: Handle)
    requires LocksCover(s) && OneRecord(s, t, p, g)
    requires forall h :: h != g ==> t.locks[h] == s.locks[h] && Reserved(t, h) == Reserved(s, h)
    requires Covered(t, g)
    ensures LocksCover(t)
  {
    forall h | h != g ensures Covered(t, h) {
      forall k ensures Claim(t, k, h) <= Claim(s, k, h) { ClaimElsewhere(s, t, p, g, k, h); }
      assert Covered(s, h);
      CoveredSame(s, t, h);
    }
  }

  lemma CoverMapIssue(s: State, c: Conn, p: Ptr, h: Handle, len: nat)
    requires LocksCover(s) && p in s.heap && s.pc.Free?
    ensures LocksCover(DoMapIssue(s, c, p, h, len))
  {
    var t := DoMapIssue(s, c, p, h, len);
    var sid := s.heap[p].sessionId;
    assert OneRecord(s, t, p, h);
    forall k | k != sid ensures Claim(t, k, h) <= Claim(s, k, h) { ClaimElsewhere(s, t, p, h, k, h); }
    assert Covered(s, h);
    if Mapped(s, sid, h) > 0 { CoveredSame(s, t, h); } else { CoveredUp(s, t, h, sid); }
    CoverElsewhere(s, t, p, h);
  }

  /** A record goes, and its lock with it; the secure world no longer has the mapping it stood for. */
  lemma CoverForget(s: State, t: State, p: Ptr, h: Handle)
    requires LocksCover(s) && Ids(s) && OneRecord(s, t, p, h)
    requires h in s.heap[p].buffers && h !in t.heap[p].buffers
    requires t.locks == s.locks - multiset{h}
    requires forall g :: Reserved(t, g) == 0
    requires forall g :: g != h ==> Reserved(s, g) == 0
    requires Reserved(s, h) == if Mapped(s, s.heap[p].sessionId, h) > 0 then 1 else 0
    ensures LocksCover(t)
  {
    var sid := s.heap[p].sessionId;
    forall k | k != sid ensures Claim(t, k, h) <= Claim(s, k, h) { ClaimElsewhere(s, t, p, h, k, h); }
    assert Recorded(s, sid, h);
    assert !Recorded(t, sid, h);
    assert Covered(s, h);
    if Mapped(s, sid, h) > 0 { CoveredSame(s, t, h); } else { CoveredDown(s, t, h, sid); }
    CoverElsewhere(s, t, p, h);
  }

  lemma CoverUnmapDone(s: State)
    requires LocksCover(s) && InProgress(s) && Ids(s)
    requires s.pc.UnmapWait? && s.pc.p in s.heap && AnswerReady(s)
    ensures LocksCover(DoUnmapDone(s))
  {
    var t := DoUnmapDone(s);
    if s.mcp.answer == Ok {
      UnmapForgets(s);
      CoverForget(s, t, s.pc.p, s.pc.h);
    } else {
      CoverQuiet(s, t);
    }
  }

  lemma UnmapForgets(s: State)
    requires s.pc.UnmapWait? && s.pc.p in s.heap && AnswerReady(s) && s.mcp.answer == Ok
    ensures var t := DoUnmapDone(s);
      && OneRecord(s, t, s.pc.p, s.pc.h) && s.pc.h !in t.heap[s.pc.p].buffers
      && t.locks == s.locks - multiset{s.pc.h} && forall g :: Reserved(t, g) == 0
  {}

  lemma CoverPopBuffer(s: State, h: Handle)
    requires LocksCover(s) && Ids(s) && CanFree(s, PopBuffer(h))
    requires s.heap[s.pc.p].sessionId !in s.sw
    ensures LocksCover(DoFree(s, PopBuffer(h)))
  {
    CoverForget(s, DoFree(s, PopBuffer(h)), s.pc.p, h);
  }

  lemma CoverAnswer(s: State, a: Answer)
    requires LocksCover(s) && InProgress(s) && Flow(s) && CanSw(s, SwAnswer(a))
    ensures LocksCover(DoSw(s, SwAnswer(a)))
  {
    var t := DoSw(s, SwAnswer(a));
    if a == Refused || a == TaskFailed {
      CoverQuiet(s, t);
    } else {
      match s.mcp.cmd
      case OpenCmd(_, _) => CoverQuiet(s, t);
      case CloseCmd(_) => CoverAnswerClose(s);
      case MapCmd(_, _) => CoverAnswerMap(s);
      case UnmapCmd(_, _) => CoverAnswerUnmap(s);
    }
  }

  lemma RecordsKept(s: State, t: State, sid: Sid, h: Handle)
    requires t.heap == s.heap
    ensures Recorded(t, sid, h) <==> Recorded(s, sid, h)
  {}

  lemma CoverStart(s: State, sid: Sid)
    requires LocksCover(s) && Flow(s) && CanSw(s, SwStart(sid))
    ensures LocksCover(DoSw(s, SwStart(sid)))
  {
    var t := DoSw(s, SwStart(sid));
    forall h: Handle ensures Covered(t, h) {
      RecordsKept(s, t, sid, h);
      assert !Recorded(s, sid, h);
      assert Covered(s, h);
      if s.pc.tci == Some(h) { CoveredUp(s, t, h, sid); } else { CoveredSame(s, t, h); }
    }
  }

  lemma CoverAnswerClose(s: State)
    requires LocksCover(s) && Flow(s) && CanSw(s, SwAnswer(Ok)) && s.mcp.cmd.CloseCmd?
    ensures LocksCover(DoSw(s, SwAnswer(Ok)))
  {
    var t := DoSw(s, SwAnswer(Ok));
    forall h: Handle ensures Covered(t, h) {
      forall k ensures Claim(t, k, h) <= Claim(s, k, h) { RecordsKept(s, t, k, h); }
      assert Covered(s, h);
      CoveredSame(s, t, h);
    }
  }

  lemma CoverAnswerMap(s: State)
    requires LocksCover(s) && InProgress(s) && Flow(s) && CanSw(s, SwAnswer(Ok)) && s.mcp.cmd.MapCmd?
    ensures LocksCover(DoSw(s, SwAnswer(Ok)))
  {
    var t := DoSw(s, SwAnswer(Ok));
    var sid, g := s.mcp.cmd.sid, s.mcp.cmd.h;
    forall h: Handle ensures Covered(t, h) {
      forall k ensures Recorded(t, k, h) <==> Recorded(s, k, h) { RecordsKept(s, t, k, h); }
      assert Covered(s, h);
      if h == g && Mapped(s, sid, h) > 0 { CoveredUp(s, t, h, sid); }
      else {
        assert h == g ==> Recorded(s, sid, h);
        CoveredSame(s, t, h);
      }
    }
  }

  lemma CoverAnswerUnmap(s: State)
    requires LocksCover(s) && InProgress(s) && Flow(s) && CanSw(s, SwAnswer(Ok)) && s.mcp.cmd.UnmapCmd?
    ensures LocksCover(DoSw(s, SwAnswer(Ok)))
  {
    var t := DoSw(s, SwAnswer(Ok));
    var sid, g := s.mcp.cmd.sid, s.mcp.cmd.h;
    forall h: Handle ensures Covered(t, h) {
      forall k ensures Recorded(t, k, h) <==> Recorded(s, k, h) { RecordsKept(s, t, k, h); }
      assert Covered(s, h);
      if h == g && Mapped(s, sid, h) > 1 { CoveredDown(s, t, h, sid); } else { CoveredSame(s, t, h); }
    }
  }

  // ---------------------------------------------------------------- all steps

  lemma CoverCommand(s: State, step: CommandStep)
    requires LocksCover(s) && InProgress(s) && Ids(s) && CanCommand(s, step)
    ensures LocksCover(DoCommand(s, step))
  {
    match step
    case OpenDone(at) => CoverOpenDone(s, at);
    case MapIssue(c, sid, h, len) => CoverMapIssue(s, c, FindSession(s, c, sid).value, h, len);
    case UnmapDone => CoverUnmapDone(s);
    case _ => CoverOtherCommand(s, step);
  }

  lemma CoverKept(s: State, step: Step)
    requires Lifetime(s) && Flow(s) && InProgress(s) && LocksCover(s) && Enabled(s, step)
    ensures LocksCover(Apply(s, step))
  {
    match step
    case OfClient(x) => CoverClient(s, x);
    case OfCommand(x) => CoverCommand(s, x);
    case OfClose(x) => CoverClose(s, x);
    case OfFree(x) => if x.PopBuffer? { CoverPopBuffer(s, x.h); } else { CoverFree(s, x); }
    case OfTa(x) => CoverTa(s, x);
    case OfIrq(x) => CoverIrq(s, x);
    case OfSw(SwStart(sid)) => CoverStart(s, sid);
    case OfSw(SwAnswer(a)) => CoverAnswer(s, a);
    case OfSw(SwNotify(sid, payload)) => CoverNotify(s, sid, payload);
  }

  lemma InProgressCommand(s: State, step: CommandStep)
    requires InProgress(s) && CanCommand(s, step)
    ensures InProgress(DoCommand(s, step))
  {
    match step
    case MapIssue(c, sid, h, len) => InProgressMapIssue(s, c, FindSession(s, c, sid).value, h, len);
    case _ =>
  }

  lemma InProgressMapIssue(s: State, c: Conn, p: Ptr, h: Handle, len: nat)
    requires p in s.heap
    ensures InProgress(DoMapIssue(s, c, p, h, len))
  {}

  lemma InProgressClient(s: State, step: ClientStep)
    requires InProgress(s) && CanClient(s, step)
    ensures InProgress(DoClient(s, step))
  {}

  lemma InProgressClose(s: State, step: CloseStep)
    requires InProgress(s) && CanClose(s, step)
    ensures InProgress(DoClose(s, step))
  {}

  lemma InProgressFree(s: State, step: FreeStep)
    requires InProgress(s) && CanFree(s, step)
    ensures InProgress(DoFree(s, step))
  {}

  lemma InProgressIrq(s: State, step: IrqStep)
    requires InProgress(s) && CanIrq(s, step)
    ensures InProgress(DoIrq(s, step))
  {}

  lemma InProgressSw(s: State, step: SwStep)
    requires Pipeline(s) && InProgress(s) && CanSw(s, step)
    ensures InProgress(DoSw(s, step))
  {}

  lemma InProgressKept(s: State, step: Step)
    requires Flow(s) && InProgress(s) && Enabled(s, step)
    ensures InProgress(Apply(s, step))
  {
    match step
    case OfClient(x) => InProgressClient(s, x);
    case OfCommand(x) => InProgressCommand(s, x);
    case OfClose(x) => InProgressClose(s, x);
    case OfFree(x) => InProgressFree(s, x);
    case OfTa(x) =>
    case OfIrq(x) => InProgressIrq(s, x);
    case OfSw(x) => InProgressSw(s, x);
  }
}
