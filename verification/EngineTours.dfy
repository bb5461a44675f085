/**
 * Whole lives of GP sessions, step by step: the two ways a close that failed at first is completed,
 * a notification on its way through NQ_CONNECT, and a client that dies.
 */
module EngineTours {
  import opened Common
  import opened SessionSpec
  import opened Engine
  import opened EngineEndless
  import opened EngineExamples
  import opened EngineTheorems

  lemma Go(s: State, step: Step, t: State)
    requires Reachable(s) && Enabled(s, step) && Apply(s, step) == t
    ensures Reachable(t)
  {
    ReachableStep(s, step);
  }

  /** Somebody asks, the secure world answers, and the answer is there. */
  lemma Ask(s: State, step: Step, a: Answer, t: State)
    requires Reachable(s) && Enabled(s, step) && Dry(Apply(s, step)) && CanSw(Apply(s, step), SwAnswer(a))
    requires var u := Apply(s, step); t == u.(mcp := Response(a), sw := SwAfter(u, a), mcpSem := u.mcpSem + 1)
    ensures Reachable(t)
  {
    ReachableStep(s, step);
    var v := AnswerRound(Apply(s, step), a);
  }

  // ---------------------------------------------------------------- an open GP session

  const OPEN_GP := SwSession(true, false, multiset{7})
  const EXITED_GP := SwSession(true, true, multiset{7})
  const EXIT := Notification(1, 1)
  const PLAIN := Notification(1, 0)

  /** Owned by connection 0, opened with a TCI buffer of 16 bytes. */
  const OWNED := Session(1, true, Some(0), None, TaRunning, [], map[7 := 16], [], 0, None)
  const ORPHAN := OWNED.(owner := None, state := CloseSend)
  const DEAD := ORPHAN.(state := TaDead, queue := [EXIT])

  const Locked := Connected.(locks := multiset{7})
  const Running := Locked.(heap := map[0 := OWNED], list := [0], sw := map[1 := OPEN_GP], mcp := Response(Opened(1)))

  lemma RunningReachable()
    ensures Reachable(Running)
  {
    ConnectedReachable();
    var open := OfCommand(OpenIssue(0, true, Some(7), 16));
    var asked := Locked.(mcp := Request(OpenCmd(true, Some(7)), None), pc := OpenWait(0, true, Some(7), 16, 0));
    Go(Connected, open, asked);
    var started := asked.(mcp := Request(OpenCmd(true, Some(7)), Some(1)), sw := map[1 := OPEN_GP]);
    Go(asked, OfSw(SwStart(1)), started);
    var answered := AnswerRound(started, Opened(1));
    Go(answered, OfCommand(OpenDone(0)), Running);
  }

  /** The IRQ thread handles one notification that finds the session without a notification connection. */
  lemma Queues(s: State, n: Notification, t: State)
    requires Reachable(s) && s.irq.IrqIdle? && s.ring == [n] && n.sessionId == 1 && s.list == [0]
    requires 0 in s.heap && s.heap[0].sessionId == 1 && s.heap[0].nq.None?
    requires t == s.(ring := [], heap := s.heap[0 := QueueNotification(s.heap[0], n)], log := s.log + [n],
                     tokens := if s.heap[0].owner.None? then s.tokens + 1 else s.tokens)
    ensures Reachable(t)
  {
    var s1 := s.(ring := [], irq := IrqGot(n));
    Go(s, OfIrq(IrqTake), s1);
    assert s.list[0] == 0;
    var s2 := s1.(irq := IrqFound(n, 0));
    Go(s1, OfIrq(IrqDispatch), s2);
    var s3 := t.(irq := IrqQueued(0), tokens := s.tokens);
    Go(s2, OfIrq(IrqDeliver), s3);
    Go(s3, OfIrq(IrqWake), t);
  }

  const Exited := Running.(heap := map[0 := OWNED.(state := TaDead, queue := [EXIT])], sw := map[1 := EXITED_GP],
                           log := [EXIT])

  /** Its TA exits while the client is still there: the session is dead, and nobody is woken. */
  lemma ExitBeforeConnect()
    ensures Reachable(Exited) && Exited.tokens == 0 && Exited.ta.Asleep?
  {
    RunningReachable();
    var s := Running.(ring := [EXIT], sw := map[1 := EXITED_GP]);
    Go(Running, OfSw(SwNotify(1, 1)), s);
    Queues(s, EXIT, Exited);
  }

  // ---------------------------------------------------------------- the client closes it

  const Closing := Running.(heap := map[0 := ORPHAN], pc := CloseIssue(OnCommand(0), 0, false))

  lemma ClosingReachable()
    ensures Reachable(Closing)
  {
    RunningReachable();
    assert Running.list[0] == 0;
    assert FindSession(Running, 0, 1) == Some(0);
    var s := Running.(pc := CloseMark(OnCommand(0), 0));
    Go(Running, OfClose(CloseBegin(0, 1)), s);
    assert s.heap[0 := Disconnected(s.heap[0])] == map[0 := ORPHAN];
    Go(s, OfClose(Disconnect), Closing);
  }

  /** The close fails and the session lives: it is left, without a client and with its buffer. */
  const Deferred := Running.(heap := map[0 := ORPHAN], mcp := Response(TaskFailed))

  lemma DeferredReachable()
    ensures Reachable(Deferred)
  {
    ClosingReachable();
    var s := Closing.(mcp := Response(TaskFailed), mcpSem := 1, pc := CloseWait(OnCommand(0), 0, false));
    Ask(Closing, OfClose(SendClose), TaskFailed, s);
    var s1 := Deferred.(pc := CloseCheck(OnCommand(0), 0));
    Go(s, OfClose(CloseDone), s1);
    Go(s1, OfClose(CheckState), Deferred);
  }

  /** From asking once more to the end: the record, the lock, and the object go. */
  lemma FreesAll(s: State, who: Caller, t: State)
    requires Reachable(s) && s.pc == FreeBuffers(who, 0) && s.heap == map[0 := DEAD] && s.list == [0]
    requires TsListFree(s) && s.locks == multiset{7}
    requires t == s.(heap := map[], list := [], locks := multiset{}, pc := After(who))
    ensures Reachable(t)
  {
    var bare := DEAD.(buffers := map[]);
    assert DEAD.buffers - {7} == map[];
    var s1 := s.(heap := map[0 := bare], locks := multiset{});
    Go(s, OfFree(PopBuffer(7)), s1);
    var s2 := s1.(pc := Unlink(who, 0));
    Go(s1, OfFree(NoBuffers), s2);
    assert Remove([0], 0) == [];
    var s3 := s2.(list := [], pc := Delete(who, 0));
    Go(s2, OfFree(UnlinkSession), s3);
    assert map[0 := bare] - {0} == map[];
    Go(s3, OfFree(DeleteSession), t);
  }

  // ---------------------------------------------------------------- the exit comes later

  /** The exit of the session that was left is announced: it is dead, and there is a token. */
  const Announced := Deferred.(heap := map[0 := DEAD], sw := map[1 := EXITED_GP], tokens := 1, log := [EXIT])

  lemma AnnouncedReachable()
    ensures Reachable(Announced)
  {
    DeferredReachable();
    var s := Deferred.(ring := [EXIT], sw := map[1 := EXITED_GP]);
    Go(Deferred, OfSw(SwNotify(1, 1)), s);
    Queues(s, EXIT, Announced);
  }

  /** The TA-exit thread is woken, asks again, frees everything, finds nothing more, and sleeps. */
  const Collected := Locked.(locks := multiset{}, mcp := Response(Ok), log := [EXIT])

  lemma CollectedReachable()
    ensures Reachable(Collected)
  {
    AnnouncedReachable();
    var s := Announced.(tokens := 0, ta := Awake);
    Go(Announced, OfTa(TaWake), s);
    var s1 := s.(ta := InMcp, pc := TaScan);
    Go(s, OfTa(TaLock), s1);
    assert s1.list[0] == 0;
    var s2 := s1.(pc := CloseIssue(OnTaExit, 0, false));
    Go(s1, OfTa(TaSearch), s2);
    var s3 := s2.(mcp := Response(Ok), mcpSem := 1, pc := CloseWait(OnTaExit, 0, false), sw := map[]);
    assert map[1 := EXITED_GP] - {1} == map[];
    Ask(s2, OfClose(SendClose), Ok, s3);
    var s4 := s3.(mcpSem := 0, pc := FreeBuffers(OnTaExit, 0));
    Go(s3, OfClose(CloseDone), s4);
    var s5 := s4.(heap := map[], list := [], locks := multiset{}, pc := TaScan);
    FreesAll(s4, OnTaExit, s5);
    Go(s5, OfTa(TaSearch), Collected);
  }

  // ---------------------------------------------------------------- the exit comes with the failure

  /** The close fails, and before the command thread looks the session is dead. */
  const FailedDead := Running.(heap := map[0 := DEAD], mcp := Response(TaskFailed), mcpSem := 1, tokens := 1,
                               sw := map[1 := EXITED_GP], log := [EXIT], pc := CloseWait(OnCommand(0), 0, false))

  lemma FailedDeadReachable()
    ensures Reachable(FailedDead)
  {
    ClosingReachable();
    var s := Closing.(mcp := Response(TaskFailed), mcpSem := 1, pc := CloseWait(OnCommand(0), 0, false));
    Ask(Closing, OfClose(SendClose), TaskFailed, s);
    var s1 := s.(ring := [EXIT], sw := map[1 := EXITED_GP]);
    Go(s, OfSw(SwNotify(1, 1)), s1);
    Queues(s1, EXIT, FailedDead);
  }

  /** The command thread asks a second time and frees everything; the TA-exit thread finds nothing. */
  lemma ClosedAtOnce()
    ensures Reachable(Collected.(tokens := 1)) && Reachable(Collected)
  {
    FailedDeadReachable();
    var s := FailedDead.(mcpSem := 0, pc := CloseCheck(OnCommand(0), 0));
    Go(FailedDead, OfClose(CloseDone), s);
    var s1 := s.(pc := CloseIssue(OnCommand(0), 0, true));
    Go(s, OfClose(CheckState), s1);
    var s2 := s1.(mcp := Response(Ok), mcpSem := 1, pc := CloseWait(OnCommand(0), 0, true), sw := map[]);
    assert map[1 := EXITED_GP] - {1} == map[];
    Ask(s1, OfClose(SendClose), Ok, s2);
    var s3 := s2.(mcpSem := 0, pc := FreeBuffers(OnCommand(0), 0));
    Go(s2, OfClose(CloseDone), s3);
    FreesAll(s3, OnCommand(0), Collected.(tokens := 1));
    var s4 := Collected.(ta := Awake);
    Go(Collected.(tokens := 1), OfTa(TaWake), s4);
    var s5 := Collected.(ta := InMcp, pc := TaScan);
    Go(s4, OfTa(TaLock), s5);
    Go(s5, OfTa(TaSearch), Collected);
  }

  // ---------------------------------------------------------------- notifications and NQ_CONNECT

  /** A second connection attaches to the session, after a notification was queued. */
  const Attaching := Running.(nextConn := 2, log := [PLAIN])
  const ATTACHED := OWNED.(nq := Some(1), written := [PLAIN], attachedAt := Some(1))

  lemma QueuedReachable()
    ensures Reachable(Attaching.(clients := {0, 1}, heap := map[0 := OWNED.(queue := [PLAIN])]))
  {
    RunningReachable();
    var s := Running.(clients := {0, 1}, nextConn := 2);
    assert Running.clients + {1} == {0, 1};
    Go(Running, OfClient(Connect), s);
    var s1 := s.(ring := [PLAIN]);
    assert s.sw[1 := OPEN_GP] == s.sw;
    Go(s, OfSw(SwNotify(1, 0)), s1);
    Queues(s1, PLAIN, Attaching.(clients := {0, 1}, heap := map[0 := OWNED.(queue := [PLAIN])]));
  }

  lemma AttachedReachable()
    ensures Reachable(Attaching.(clients := {0}, heap := map[0 := ATTACHED]))
  {
    QueuedReachable();
    var s := Attaching.(clients := {0, 1}, heap := map[0 := OWNED.(queue := [PLAIN])]);
    var t := Attaching.(clients := {0}, heap := map[0 := ATTACHED]);
    assert s.clients - {1} == {0} && s.heap[0].written + [PLAIN] == [PLAIN];
    assert Attached(s.heap[0], 1, 1) == ATTACHED && s.heap[0 := ATTACHED] == t.heap;
    assert s.list[0] == 0;
    Go(s, OfClient(NqConnect(1, 0)), t);
  }

  /** The notification before NQ_CONNECT and the one after it are both written, in order. */
  const Notified := Running.(nextConn := 2, sw := map[1 := EXITED_GP], log := [PLAIN, EXIT],
                             heap := map[0 := ATTACHED.(written := [PLAIN, EXIT])])

  lemma NotifiedReachable()
    ensures Reachable(Notified)
  {
    AttachedReachable();
    var s := Attaching.(clients := {0}, heap := map[0 := ATTACHED]);
    var s1 := s.(ring := [EXIT], sw := map[1 := EXITED_GP]);
    Go(s, OfSw(SwNotify(1, 1)), s1);
    assert [PLAIN] + [EXIT] == [PLAIN, EXIT];
    assert s1.heap[0 := s1.heap[0].(written := [PLAIN, EXIT])] == Notified.heap;
    Forwards(s1, EXIT, Notified);
  }

  /** The IRQ thread handles one notification of a session with a notification connection. */
  lemma Forwards(s: State, n: Notification, t: State)
    requires Reachable(s) && s.irq.IrqIdle? && s.ring == [n] && n.sessionId == 1 && s.list == [0]
    requires 0 in s.heap && s.heap[0].sessionId == 1 && s.heap[0].nq.Some?
    requires t == s.(ring := [], log := s.log + [n],
                     heap := s.heap[0 := s.heap[0].(written := s.heap[0].written + [n])])
    ensures Reachable(t)
  {
    var s1 := s.(ring := [], irq := IrqGot(n));
    Go(s, OfIrq(IrqTake), s1);
    assert s.list[0] == 0;
    var s2 := s1.(irq := IrqFound(n, 0));
    Go(s1, OfIrq(IrqDispatch), s2);
    Go(s2, OfIrq(IrqDeliver), t);
  }

  // ---------------------------------------------------------------- a client that dies

  const Dying := Fresh.(dead := {0}, pc := CloseIssue(OnDeviceClose(0), 0, false))

  lemma DyingReachable()
    ensures Reachable(Dying)
  {
    FreshReachable();
    var s := Fresh.(dead := {0});
    Go(Fresh, OfClient(Die(0)), s);
    var s1 := s.(pc := DevScan(0));
    Go(s, OfClose(CloseDevice(0)), s1);
    assert s1.list[0] == 0;
    var s2 := s1.(pc := CloseMark(OnDeviceClose(0), 0));
    Go(s1, OfClose(ScanDevice), s2);
    assert s2.heap[0 := Disconnected(s2.heap[0])] == s2.heap;
    Go(s2, OfClose(Disconnect), Dying);
  }

  const Emptied := Connected.(dead := {0}, pc := DevScan(0), mcp := Response(Ok))

  lemma EmptiedReachable()
    ensures Reachable(Emptied)
  {
    DyingReachable();
    var s := Dying.(mcp := Response(Ok), mcpSem := 1, pc := CloseWait(OnDeviceClose(0), 0, false), sw := map[]);
    assert Dying.sw - {1} == map[];
    Ask(Dying, OfClose(SendClose), Ok, s);
    var s1 := s.(mcpSem := 0, pc := FreeBuffers(OnDeviceClose(0), 0));
    Go(s, OfClose(CloseDone), s1);
    var s2 := s1.(pc := Unlink(OnDeviceClose(0), 0));
    Go(s1, OfFree(NoBuffers), s2);
    assert Remove([0], 0) == [];
    var s3 := s2.(list := [], pc := Delete(OnDeviceClose(0), 0));
    Go(s2, OfFree(UnlinkSession), s3);
    assert s3.heap - {0} == map[];
    Go(s3, OfFree(DeleteSession), Emptied);
  }

  /** Its device is closed for it, its session goes, and it is reaped: only the answer is left. */
  lemma DeadClientIsReaped()
    ensures Reachable(Init.(nextConn := 1, mcp := Response(Ok)))
  {
    EmptiedReachable();
    var s := Emptied.(pc := Free, devices := {}, exiting := {0});
    assert Emptied.devices - {0} == {};
    Go(Emptied, OfClose(ScanDevice), s);
    assert {0} - {0} == {};
    Go(s, OfClient(Reap(0)), Init.(nextConn := 1, mcp := Response(Ok)));
  }
}
