/**
 * Runs from the start to states in which the daemon does less than it seems to.
 */
module EngineExamples {
  import opened Common
  import opened SessionSpec
  import opened Engine
  import opened EngineEndless
  import opened EngineTheorems

  const MCP := Notification(SID_MCP, 0)

  /** The secure world answers, and the IRQ thread passes the answer on. */
  lemma AnswerRound(s: State, a: Answer) returns (t: State)
    requires Reachable(s) && Dry(s) && CanSw(s, SwAnswer(a))
    ensures Reachable(t) && t == s.(mcp := Response(a), sw := SwAfter(s, a), mcpSem := s.mcpSem + 1)
  {
    var s1 := DoSw(s, SwAnswer(a));
    ReachableStep(s, OfSw(SwAnswer(a)));
    var s2 := s1.(ring := [], irq := IrqGot(MCP));
    assert s1.ring == [MCP];
    ReachableStep(s1, OfIrq(IrqTake));
    assert Apply(s1, OfIrq(IrqTake)) == s2;
    ReachableStep(s2, OfIrq(IrqDispatch));
    t := s.(mcp := Response(a), sw := SwAfter(s, a), mcpSem := s.mcpSem + 1);
    assert Apply(s2, OfIrq(IrqDispatch)) == t;
  }

  const Connected := Init.(clients := {0}, nextConn := 1, devices := {0})

  lemma ConnectedReachable()
    ensures Reachable(Connected)
  {
    assert Runs(Init, []) && RunFrom(Init, []) == Init;
    ReachableStep(Init, OfClient(Connect));
    var s := Init.(clients := {0}, nextConn := 1);
    assert Apply(Init, OfClient(Connect)) == s;
    ReachableStep(s, OfClient(OpenDevice(0)));
    assert Apply(s, OfClient(OpenDevice(0))) == Connected;
  }

  /** One client with one legacy session and these buffers, nothing in progress. */
  function OneSession(buffers: map<Handle, nat>, maps: multiset<Handle>, locks: multiset<Handle>,
                      kept: multiset<Handle>, answer: Answer): State {
    Connected.(heap := map[0 := Session(1, false, Some(0), None, TaRunning, [], buffers, [], 0, None)], list := [0],
               sw := map[1 := SwSession(false, false, maps)], locks := locks, kept := kept, mcp := Response(answer))
  }

  /** The client's OPEN has been sent and the secure world has started the session. */
  const Starting := Connected.(mcp := Request(OpenCmd(false, None), Some(1)), pc := OpenWait(0, false, None, 0, 0),
                               sw := map[1 := SwSession(false, false, multiset{})])

  lemma StartingReachable()
    ensures Reachable(Starting)
  {
    ConnectedReachable();
    var open := OfCommand(OpenIssue(0, false, None, 0));
    ReachableStep(Connected, open);
    var s := Connected.(mcp := Request(OpenCmd(false, None), None), pc := OpenWait(0, false, None, 0, 0));
    assert Apply(Connected, open) == s;
    ReachableStep(s, OfSw(SwStart(1)));
    assert Apply(s, OfSw(SwStart(1))) == Starting;
  }

  /** The new session's first notification is handled before its OPEN is answered. */
  lemma EarlyNotification()
    ensures exists s :: Reachable(s) && s.mcp.Request? && s.unknown == [Notification(1, 0)]
  {
    StartingReachable();
    var n := Notification(1, 0);
    ReachableStep(Starting, OfSw(SwNotify(1, 0)));
    var s1 := Starting.(ring := [n]);
    assert Apply(Starting, OfSw(SwNotify(1, 0))) == s1;
    ReachableStep(s1, OfIrq(IrqTake));
    var s2 := Starting.(irq := IrqGot(n));
    assert Apply(s1, OfIrq(IrqTake)) == s2;
    ReachableStep(s2, OfIrq(IrqDispatch));
    assert Apply(s2, OfIrq(IrqDispatch)).unknown == [n];
  }

  const Fresh := OneSession(map[], multiset{}, multiset{}, multiset{}, Opened(1))

  lemma FreshReachable()
    ensures Reachable(Fresh)
  {
    StartingReachable();
    var s := AnswerRound(Starting, Opened(1));
    ReachableStep(s, OfCommand(OpenDone(0)));
    assert Apply(s, OfCommand(OpenDone(0))) == Fresh;
  }

  /** The client closes its device: a state the loop need not get out of. */
  lemma LegacyExample()
    ensures exists s :: Reachable(s) && ScanFor(s, 0, 0) && Endless(s, 0, 0)
  {
    FreshReachable();
    ReachableStep(Fresh, OfClose(CloseDevice(0)));
    var s := Apply(Fresh, OfClose(CloseDevice(0)));
    assert s.list[0] == 0;
    RepeatsExactlyWhen(s, 0, 0);
    assert Reachable(s) && ScanFor(s, 0, 0) && Endless(s, 0, 0);
  }

  /** No session, nobody at work, and the buffer is locked. */
  predicate Leaked(s: State, h: Handle) { s.heap == map[] && s.list == [] && s.pc.Free? && s.locks[h] == 1 }

  /** An OPEN fails after it has locked the buffer. */
  lemma ErrorLeaks()
    ensures exists s :: Reachable(s) && Leaked(s, 7)
  {
    ConnectedReachable();
    ReachableStep(Connected, OfCommand(KeepLock(0, 7)));
    assert Leaked(Apply(Connected, OfCommand(KeepLock(0, 7))), 7);
  }

  /** A map of buffer 7, asked for and answered. */
  lemma MapRound(s: State, t: State)
    requires Reachable(s) && Dry(s) && s.pc.Free? && s.mcpSem == 0 && s.list == [0] && 0 in s.heap && 1 in s.sw
    requires s.clients == s.devices == {0} && s.dead == {}
    requires s.heap[0].sessionId == 1 && s.heap[0].owner == Some(0)
    requires t == s.(heap := s.heap[0 := WithBuffer(s.heap[0], 7, 4)], locks := s.locks + multiset{7},
                     kept := if 7 in s.heap[0].buffers then s.kept + multiset{7} else s.kept,
                     sw := s.sw[1 := s.sw[1].(maps := s.sw[1].maps + multiset{7})], mcp := Response(Ok))
    ensures Reachable(t)
  {
    var map7 := OfCommand(MapIssue(0, 1, 7, 4));
    assert s.list[0] == 0;
    assert FindSession(s, 0, 1) == Some(0);
    ReachableStep(s, map7);
    var s1 := DoMapIssue(s, 0, 0, 7, 4);
    assert Apply(s, map7) == s1;
    var s2 := AnswerRound(s1, Ok);
    ReachableStep(s2, OfCommand(MapDone));
    assert Apply(s2, OfCommand(MapDone)) == t;
  }

  const Mapped := OneSession(map[7 := 4], multiset{7}, multiset{7}, multiset{}, Ok)

  const MappedTwice := OneSession(map[7 := 4], multiset{7, 7}, multiset{7, 7}, multiset{7}, Ok)

  lemma MappedTwiceReachable()
    ensures Reachable(MappedTwice)
  {
    FreshReachable();
    MapRound(Fresh, Mapped);
    assert MappedTwice.heap == Mapped.heap[0 := WithBuffer(Mapped.heap[0], 7, 4)];
    assert MappedTwice.sw == Mapped.sw[1 := Mapped.sw[1].(maps := multiset{7, 7})];
    assert multiset{7, 7} == multiset{7} + multiset{7};
    MapRound(Mapped, MappedTwice);
  }

  /** The session is asked to close, and the secure world closes it. */
  lemma CloseRound() returns (t: State)
    ensures Reachable(t) && t == MappedTwice.(pc := FreeBuffers(OnCommand(0), 0), sw := map[])
  {
    MappedTwiceReachable();
    var s := MappedTwice;
    assert s.list[0] == 0;
    assert FindSession(s, 0, 1) == Some(0);
    ReachableStep(s, OfClose(CloseBegin(0, 1)));
    var s1 := s.(pc := CloseMark(OnCommand(0), 0));
    assert Apply(s, OfClose(CloseBegin(0, 1))) == s1;
    ReachableStep(s1, OfClose(Disconnect));
    var s2 := s.(pc := CloseIssue(OnCommand(0), 0, false));
    assert s1.heap[0 := Disconnected(s1.heap[0])] == s.heap;
    assert Apply(s1, OfClose(Disconnect)) == s2;
    ReachableStep(s2, OfClose(SendClose));
    var s3 := s.(pc := CloseWait(OnCommand(0), 0, false), mcp := Request(CloseCmd(1), None));
    assert Apply(s2, OfClose(SendClose)) == s3;
    var s4 := AnswerRound(s3, Ok);
    assert s4.sw == map[];
    ReachableStep(s4, OfClose(CloseDone));
    t := s.(pc := FreeBuffers(OnCommand(0), 0), sw := map[]);
    assert Apply(s4, OfClose(CloseDone)) == t;
  }

  /** The session maps the buffer twice and is closed. */
  lemma SecondMapLeaks()
    ensures exists s :: Reachable(s) && Leaked(s, 7)
  {
    var s := CloseRound();
    ReachableStep(s, OfFree(PopBuffer(7)));
    var s1 := Apply(s, OfFree(PopBuffer(7)));
    assert s1.heap[0].buffers == map[] && s1.locks[7] == 1;
    ReachableStep(s1, OfFree(NoBuffers));
    var s2 := Apply(s1, OfFree(NoBuffers));
    ReachableStep(s2, OfFree(UnlinkSession));
    var s3 := Apply(s2, OfFree(UnlinkSession));
    assert s3.list == [];
    ReachableStep(s3, OfFree(DeleteSession));
    var s4 := Apply(s3, OfFree(DeleteSession));
    assert s4.heap == map[];
    assert Leaked(s4, 7);
  }
}
