/**
 * mutex_mcp is never stuck: its holder can move, or the IRQ thread or the secure world can, and an
 * MCP answer is delivered after a bounded number of IRQ steps whatever all other threads do.
 */
module EngineProgress {
  import opened Common
  import opened SessionSpec
  import opened Engine
  import opened EngineLifetime
  import opened EngineStream

  /** A step of the holder of mutex_mcp, of the IRQ thread, or the secure world's answer. */
  predicate Helps(step: Step) {
    match step
    case OfClient(_) => false
    case OfCommand(x) => x.OpenDone? || x.MapDone? || x.UnmapDone?
    case OfClose(x) => !x.CloseDevice? && !x.CloseBegin?
    case OfFree(_) => true
    case OfTa(x) => x.TaSearch?
    case OfIrq(_) => true
    case OfSw(x) => x.SwAnswer?
  }

  ghost predicate CanMove(s: State) { exists step :: Helps(step) && Enabled(s, step) }

  lemma IrqMoves(s: State)
    requires Lifetime(s) && (!s.irq.IrqIdle? || s.ring != [])
    ensures exists x :: CanIrq(s, x)
  {
    match s.irq
    case IrqIdle => assert CanIrq(s, IrqTake);
    case IrqGot(_) => assert CanIrq(s, IrqDispatch);
    case IrqFound(_, _) => assert CanIrq(s, IrqDeliver);
    case IrqQueued(_) => assert CanIrq(s, IrqWake);
  }

  lemma IrqCanMove(s: State)
    requires Lifetime(s) && (!s.irq.IrqIdle? || s.ring != [])
    ensures CanMove(s)
  {
    IrqMoves(s);
    var x :| CanIrq(s, x);
    assert Helps(OfIrq(x)) && Enabled(s, OfIrq(x));
  }

  /** The secure world always has a legitimate answer. */
  lemma SwCanMove(s: State)
    requires s.mcp.Request?
    ensures CanMove(s)
  {
    var a := if s.mcp.cmd.CloseCmd? && s.mcp.cmd.sid in s.sw then Ok
      else if s.mcp.cmd.OpenCmd? && s.mcp.started.Some? then Opened(s.mcp.started.value)
      else Refused;
    assert Helps(OfSw(SwAnswer(a))) && Enabled(s, OfSw(SwAnswer(a)));
  }

  ghost predicate AllBelow(used: set<Ptr>, n: Ptr) { forall p :: p in used ==> p < n }

  lemma {:induction false} SomeAbove(used: set<Ptr>)
    ensures exists n: Ptr :: AllBelow(used, n)
  {
    if used == {} {
      assert AllBelow(used, 0);
    } else {
      var q :| q in used;
      SomeAbove(used - {q});
      var n: Ptr :| AllBelow(used - {q}, n);
      assert forall p :: p in used ==> p == q || p in used - {q};
      assert AllBelow(used, if q < n then n else q + 1);
    }
  }

  /** There is always a free address. */
  lemma FreeAddress(used: set<Ptr>)
    ensures exists n: Ptr :: n !in used
  {
    SomeAbove(used);
    var n: Ptr :| AllBelow(used, n);
    assert n !in used;
  }

  /** Whoever waits for an MCP answer: it can be sent, delivered or taken. */
  lemma WaiterMoves(s: State)
    requires Lifetime(s) && Pipeline(s) && Waiting(s.pc)
    ensures CanMove(s)
  {
    if s.mcp.Request? {
      SwCanMove(s);
    } else if s.mcpSem == 1 {
      FreeAddress(s.heap.Keys);
      var at: Ptr :| at !in s.heap.Keys;
      var step := match s.pc
        case OpenWait(_, _, _, _, _) => OfCommand(OpenDone(at))
        case MapWait(_, _, _) => OfCommand(MapDone)
        case UnmapWait(_, _, _) => OfCommand(UnmapDone)
        case _ => OfClose(CloseDone);
      assert Helps(step) && Enabled(s, step);
    } else {
      var k :| AnswerAt(s, Stream(s), k);
      IrqCanMove(s);
    }
  }

  lemma CloserMoves(s: State)
    requires Lifetime(s) && (s.pc.CloseMark? || s.pc.CloseIssue? || s.pc.CloseCheck?)
    ensures CanMove(s)
  {
    if s.irq.IrqQueued? {
      IrqCanMove(s);
    } else {
      var x := if s.pc.CloseMark? then Disconnect else if s.pc.CloseIssue? then SendClose else CheckState;
      assert Helps(OfClose(x)) && Enabled(s, OfClose(x));
    }
  }

  lemma FreerMoves(s: State)
    requires Lifetime(s) && (s.pc.FreeBuffers? || s.pc.Unlink? || s.pc.Delete?)
    ensures CanMove(s)
  {
    if s.pc.FreeBuffers? {
      var b := s.heap[s.pc.p].buffers;
      if b == map[] {
        assert Helps(OfFree(NoBuffers)) && Enabled(s, OfFree(NoBuffers));
      } else {
        assert b.Keys != {};
        var h :| h in b;
        assert Helps(OfFree(PopBuffer(h))) && Enabled(s, OfFree(PopBuffer(h)));
      }
    } else if s.pc.Delete? {
      assert Helps(OfFree(DeleteSession)) && Enabled(s, OfFree(DeleteSession));
    } else if TsListFree(s) {
      assert Helps(OfFree(UnlinkSession)) && Enabled(s, OfFree(UnlinkSession));
    } else {
      IrqCanMove(s);
    }
  }

  lemma ScannerMoves(s: State)
    requires Lifetime(s) && (s.pc.DevScan? || s.pc.TaScan?)
    ensures CanMove(s)
  {
    if TsListFree(s) {
      var step := if s.pc.DevScan? then OfClose(ScanDevice) else OfTa(TaSearch);
      assert Helps(step) && Enabled(s, step);
    } else {
      IrqCanMove(s);
    }
  }

  /** While mutex_mcp is held, what its holder needs next can always happen. */
  lemma HolderMoves(s: State)
    requires Lifetime(s) && Flow(s) && !s.pc.Free?
    ensures CanMove(s)
  {
    if Waiting(s.pc) { WaiterMoves(s); }
    else if s.pc.DevScan? || s.pc.TaScan? { ScannerMoves(s); }
    else if s.pc.FreeBuffers? || s.pc.Unlink? || s.pc.Delete? { FreerMoves(s); }
    else { CloserMoves(s); }
  }

  // ---------------------------------------------------------------- how long an answer takes

  /** The answer has been sent and its token is not there yet. */
  predicate AnswerComing(s: State) { Waiting(s.pc) && s.mcp.Response? && s.mcpSem == 0 }

  /** How many notifications come before the first one of the MCP channel. */
  function Ahead(ring: seq<Notification>): nat {
    if ring == [] || ring[0].sessionId == SID_MCP then 0 else 1 + Ahead(ring[1..])
  }

  lemma {:induction false} AheadAppend(ring: seq<Notification>, n: Notification)
    requires exists k :: 0 <= k < |ring| && ring[k].sessionId == SID_MCP
    ensures Ahead(ring + [n]) == Ahead(ring)
  {
    var k :| 0 <= k < |ring| && ring[k].sessionId == SID_MCP;
    if ring[0].sessionId != SID_MCP {
      assert ring[1..][k - 1].sessionId == SID_MCP;
      assert (ring + [n])[1..] == ring[1..] + [n];
      AheadAppend(ring[1..], n);
    }
  }

  /** A bound on the IRQ steps until the answer's token is there: at most four a notification. */
  function IrqSteps(s: State): nat {
    match s.irq
    case IrqIdle => 4 * (Ahead(s.ring) + 1)
    case IrqGot(n) => if n.sessionId == SID_MCP then 1 else 4 * (Ahead(s.ring) + 1) + 3
    case IrqFound(_, _) => 4 * (Ahead(s.ring) + 1) + 2
    case IrqQueued(_) => 4 * (Ahead(s.ring) + 1) + 1
  }

  /** The IRQ thread is not blocked, and each of its steps brings the answer closer. */
  lemma AnswerComesCloser(s: State, x: IrqStep)
    requires Lifetime(s) && Flow(s) && AnswerComing(s) && CanIrq(s, x)
    ensures var t := DoIrq(s, x);
      t.pc == s.pc && t.mcp == s.mcp && (t.mcpSem == 1 || (AnswerComing(t) && IrqSteps(t) < IrqSteps(s)))
  {
    var k :| AnswerAt(s, Stream(s), k);
    if x.IrqDeliver? { assert DoIrqDeliver(s).ring == s.ring; }
  }

  /** The waiting holder itself, and everybody who wants mutex_mcp, stands still. */
  lemma HolderWaits(s: State)
    requires AnswerComing(s)
    ensures forall x :: !CanCommand(s, x)
    ensures forall x :: !CanClose(s, x)
    ensures forall x :: !CanFree(s, x)
  {}

  lemma AnswerNotDelayedSw(s: State, x: SwStep)
    requires Flow(s) && AnswerComing(s) && CanSw(s, x)
    ensures AnswerComing(DoSw(s, x)) && IrqSteps(DoSw(s, x)) <= IrqSteps(s)
  {
    var n := DoSw(s, x).ring[|s.ring|];
    var k :| AnswerAt(s, Stream(s), k);
    var i := if Stream(s) == s.ring then k else k - 1;
    if i >= 0 {
      assert s.ring[i].sessionId == SID_MCP;
      AheadAppend(s.ring, n);
    }
  }

  lemma AnswerNotDelayedClient(s: State, x: ClientStep)
    requires AnswerComing(s) && CanClient(s, x)
    ensures AnswerComing(DoClient(s, x)) && IrqSteps(DoClient(s, x)) == IrqSteps(s)
  {}

  lemma AnswerNotDelayedTa(s: State, x: TaStep)
    requires AnswerComing(s) && CanTa(s, x)
    ensures AnswerComing(DoTa(s, x)) && IrqSteps(DoTa(s, x)) == IrqSteps(s)
  {}

  /** No step of any other thread sends the answer back. */
  lemma AnswerNotDelayed(s: State, step: Step)
    requires Flow(s) && AnswerComing(s) && Enabled(s, step) && !step.OfIrq?
    ensures AnswerComing(Apply(s, step)) && IrqSteps(Apply(s, step)) <= IrqSteps(s)
  {
    HolderWaits(s);
    match step
    case OfClient(x) => AnswerNotDelayedClient(s, x);
    case OfTa(x) => AnswerNotDelayedTa(s, x);
    case OfSw(x) => AnswerNotDelayedSw(s, x);
  }
}
