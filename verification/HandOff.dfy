/**
 * The socket server's hand-off: every client has a thread that reads its commands and hands all
 * but NOTIFY to the one worker through a queue; the server's main thread reaps clients that have
 * died.  A step machine over all interleavings of client threads, worker and reaper.
 */
module HandOff {
  import opened Common

  type Id = nat

  /** Commands as far as the hand-off cares; an accepted NQ_CONNECT takes the connection away. */
  datatype Command = Notify(tag: int) | NqConnect(accepted: bool) | Other(tag: int)

  /** Where Client::run stands; Pushed holds the client's own mutex, Waiting has released it. */
  datatype ClientPc = Reading | Got | Pushed | Waiting | Done

  /** The last two fields are history: what was read from the socket, and what took effect. */
  datatype Client = Client(
    pc: ClientPc, command: Command, locked: bool, dead: bool, exiting: bool, attached: bool,
    read: seq<Command>, effects: seq<Command>)

  datatype Worker = Idle | Handling(c: Id) | Unlocking(c: Id)

  /** `joining` is the client the reaper is joining, holding clients_mutex_. */
  datatype State = State(
    clients: map<Id, Client>, next: Id, listed: set<Id>, queue: seq<Id>, worker: Worker, joining: Option<Id>)

  const Init := State(map[], 0, {}, [], Idle, None)

  datatype Step =
    | Accept
    | Read(c: Id, command: Command)
    | ReadFails(c: Id)
    | Inline(c: Id)
    | Push(c: Id)
    | Lock(c: Id)
    | Wake(c: Id)
    | Pop
    | Handle
    | Unlock
    | Reap(c: Id)
    | Delete

  predicate At(s: State, c: Id, pc: ClientPc) { c in s.clients && s.clients[c].pc == pc }

  predicate Enabled(s: State, step: Step) {
    match step
    case Accept => s.joining.None?
    case Read(c, _) => At(s, c, Reading) && s.clients[c].attached
    case ReadFails(c) => At(s, c, Reading)
    case Inline(c) => At(s, c, Got) && !s.clients[c].dead && s.clients[c].command.Notify?
    case Push(c) => At(s, c, Got) && (s.clients[c].dead || !s.clients[c].command.Notify?)
    case Lock(c) => At(s, c, Pushed)
    case Wake(c) => At(s, c, Waiting) && !s.clients[c].locked
    case Pop => s.worker.Idle? && s.queue != []
    case Handle =>
      s.worker.Handling? && s.worker.c in s.clients
      // detachConnection takes clients_mutex_
      && (!s.clients[s.worker.c].dead && s.clients[s.worker.c].command.NqConnect? ==> s.joining.None?)
    case Unlock => s.worker.Unlocking? && s.worker.c in s.clients && s.clients[s.worker.c].pc != Pushed
    case Reap(c) => s.joining.None? && c in s.listed && c in s.clients && s.clients[c].exiting
    case Delete => s.joining.Some? && At(s, s.joining.value, Done)
  }

  function Put(s: State, c: Id, x: Client): State { s.(clients := s.clients[c := x]) }

  function Apply(s: State, step: Step): State
    requires Enabled(s, step)
  {
    match step
    case Accept =>
      Put(s, s.next, Client(Reading, Other(0), false, false, false, true, [], []))
        .(next := s.next + 1, listed := s.listed + {s.next})
    case Read(c, command) =>
      var x := s.clients[c];
      Put(s, c, x.(pc := Got, command := command, read := x.read + [command]))
    case ReadFails(c) => Put(s, c, s.clients[c].(pc := Got, dead := true))
    case Inline(c) =>
      var x := s.clients[c];
      Put(s, c, x.(pc := Reading, effects := x.effects + [x.command]))
    case Push(c) => Put(s, c, s.clients[c].(pc := Pushed)).(queue := s.queue + [c])
    case Lock(c) => Put(s, c, s.clients[c].(pc := Waiting, locked := true))
    case Wake(c) => Put(s, c, s.clients[c].(pc := if s.clients[c].dead then Done else Reading))
    case Pop => s.(queue := s.queue[1..], worker := Handling(s.queue[0]))
    case Handle =>
      Put(s, s.worker.c, Handled(s.clients[s.worker.c])).(worker := Unlocking(s.worker.c))
    case Unlock => Put(s, s.worker.c, s.clients[s.worker.c].(locked := false)).(worker := Idle)
    case Reap(c) => s.(listed := s.listed - {c}, joining := Some(c))
    case Delete => s.(clients := s.clients - {s.joining.value}, joining := None)
  }

  /** What the worker does with a client: drop it when dead, else carry out its command. */
  function Handled(x: Client): Client {
    if x.dead then x.(exiting := true)
    else x.(effects := x.effects + [x.command], attached := x.attached && x.command != NqConnect(true))
  }

  ghost predicate Runs(s: State, steps: seq<Step>)
    decreases |steps|
  {
    steps == [] || (Enabled(s, steps[0]) && Runs(Apply(s, steps[0]), steps[1..]))
  }

  ghost function RunFrom(s: State, steps: seq<Step>): State
    requires Runs(s, steps)
    decreases |steps|
  {
    if steps == [] then s else RunFrom(Apply(s, steps[0]), steps[1..])
  }

  ghost predicate Reachable(s: State) {
    exists steps :: Runs(Init, steps) && RunFrom(Init, steps) == s
  }

  // ---------------------------------------------------------------- the invariant

  predicate WithWorker(s: State, c: Id) { !s.worker.Idle? && s.worker.c == c }

  predicate InFlight(s: State, c: Id) { c in s.queue || WithWorker(s, c) }

  /** The client has a command that was read and has not taken effect yet. */
  predicate Pending(s: State, c: Id)
    requires c in s.clients
  {
    !s.clients[c].dead && (s.clients[c].pc == Got || c in s.queue || s.worker == Handling(c))
  }

  /** The hand-off of one client. */
  predicate Orderly(s: State, c: Id)
    requires c in s.clients
  {
    var x := s.clients[c];
    && (x.pc == Reading || x.pc == Got || x.pc == Done ==> !InFlight(s, c) && !x.locked)
    && (x.pc == Pushed ==> InFlight(s, c) && !x.locked)
    && (x.pc == Waiting ==> (x.locked <==> InFlight(s, c)))
    && (x.pc == Reading ==> !x.dead)
    && (x.pc == Done ==> x.dead && x.exiting)
    && (x.exiting ==> x.dead && (s.worker == Unlocking(c) || (!InFlight(s, c) && x.pc != Got)))
    && (x.dead && x.pc != Got ==> x.exiting || c in s.queue || s.worker == Handling(c))
    && x.read == (if Pending(s, c) then x.effects + [x.command] else x.effects)
    && (c in s.listed || s.joining == Some(c))
    && c < s.next
  }

  ghost predicate Inv(s: State) {
    && (forall i, j :: 0 <= i < j < |s.queue| ==> s.queue[i] != s.queue[j])
    && (!s.worker.Idle? ==> s.worker.c !in s.queue)
    && (forall c :: c in s.clients ==> Orderly(s, c))
    && (forall c :: InFlight(s, c) ==> c in s.clients)
    && (forall c :: c in s.listed ==> c in s.clients)
    && (s.joining.Some? ==>
          s.joining.value in s.clients && s.joining.value !in s.listed && s.clients[s.joining.value].exiting)
  }

  /** A step in which one client changes and nothing else. */
  lemma InvOneClient(s: State, c: Id, x: Client)
    requires Inv(s) && c in s.clients && x.exiting == s.clients[c].exiting
    requires Orderly(Put(s, c, x), c)
    ensures Inv(Put(s, c, x))
  {
    var t := Put(s, c, x);
    forall d | d in t.clients && d != c ensures Orderly(t, d) { assert Orderly(s, d); }
  }

  lemma InvClient(s: State, c: Id, step: Step)
    requires Inv(s) && Enabled(s, step)
    requires (step.Read? || step.ReadFails? || step.Inline? || step.Lock? || step.Wake?) && step.c == c
    ensures Inv(Apply(s, step))
  {
    assert Orderly(s, c);
    InvOneClient(s, c, Apply(s, step).clients[c]);
  }

  lemma InvAccept(s: State)
    requires Inv(s) && Enabled(s, Accept)
    ensures Inv(Apply(s, Accept))
  {
    var t := Apply(s, Accept);
    assert s.next in s.clients ==> Orderly(s, s.next);
    assert !InFlight(s, s.next);
    forall d | d in t.clients ensures Orderly(t, d) {
      if d != s.next { assert Orderly(s, d); } else { assert !InFlight(t, d); }
    }
  }

  lemma InvPush(s: State, c: Id)
    requires Inv(s) && Enabled(s, Push(c))
    ensures Inv(Apply(s, Push(c)))
  {
    assert Orderly(s, c);
    assert forall d :: d in s.queue + [c] <==> d in s.queue || d == c;
  }

  lemma InvPop(s: State)
    requires Inv(s) && Enabled(s, Pop)
    ensures Inv(Apply(s, Pop))
  {
    assert s.queue[0] in s.queue;
    assert forall d :: d in s.queue <==> d == s.queue[0] || d in s.queue[1..];
  }

  lemma InvWorker(s: State, step: Step)
    requires Inv(s) && Enabled(s, step) && (step.Handle? || step.Unlock?)
    ensures Inv(Apply(s, step))
  {
    assert Orderly(s, s.worker.c);
  }

  lemma InvReaper(s: State, step: Step)
    requires Inv(s) && Enabled(s, step) && (step.Reap? || step.Delete?)
    ensures Inv(Apply(s, step))
  {}

  lemma InvKept(s: State, step: Step)
    requires Inv(s) && Enabled(s, step)
    ensures Inv(Apply(s, step))
  {
    match step
    case Push(c) => InvPush(s, c);
    case Pop => InvPop(s);
    case Accept => InvAccept(s);
    case Handle => InvWorker(s, step);
    case Unlock => InvWorker(s, step);
    case Reap(_) => InvReaper(s, step);
    case Delete => InvReaper(s, step);
    case _ => InvClient(s, step.c, step);
  }

  lemma {:induction false} InvRuns(s: State, steps: seq<Step>)
    requires Inv(s) && Runs(s, steps)
    ensures Inv(RunFrom(s, steps))
    decreases |steps|
  {
    if steps != [] {
      InvKept(s, steps[0]);
      InvRuns(Apply(s, steps[0]), steps[1..]);
    }
  }

  lemma InvReachable(s: State)
    requires Reachable(s)
    ensures Inv(s)
  {
    var steps :| Runs(Init, steps) && RunFrom(Init, steps) == s;
    InvRuns(Init, steps);
  }

  // ---------------------------------------------------------------- what it means

  /** How often the queue and the worker together refer to a client. */
  function References(s: State, c: Id): nat {
    multiset(s.queue)[c] + if WithWorker(s, c) then 1 else 0
  }

  lemma {:induction false} OnceInQueue(q: seq<Id>, c: Id)
    requires forall i, j :: 0 <= i < j < |q| ==> q[i] != q[j]
    ensures multiset(q)[c] == if c in q then 1 else 0
  {
    if q != [] {
      OnceInQueue(q[1..], c);
      assert q == [q[0]] + q[1..];
    }
  }

  /** A client is at most once in the queue and the worker's hands together. */
  lemma AtMostOnce(s: State, c: Id)
    requires Reachable(s)
    ensures References(s, c) <= 1
  {
    InvReachable(s);
    OnceInQueue(s.queue, c);
  }

  /** A client thread that is blocked is in the queue or in the worker's hands. */
  lemma LockedIsInFlight(s: State, c: Id)
    requires Reachable(s) && c in s.clients && s.clients[c].locked
    ensures s.clients[c].pc == Waiting && References(s, c) == 1
  {
    InvReachable(s);
    OnceInQueue(s.queue, c);
  }

  /** All commands, NOTIFY included, take effect in the order read, each before the next is read. */
  lemma EffectsInReadOrder(s: State, c: Id)
    requires Reachable(s) && c in s.clients
    ensures s.clients[c].effects <= s.clients[c].read && |s.clients[c].read| <= |s.clients[c].effects| + 1
    ensures s.clients[c].pc == Reading || s.clients[c].pc == Done ==> s.clients[c].effects == s.clients[c].read
  {
    InvReachable(s);
  }

  /** A client is deleted only when its thread has ended and nobody refers to it any more. */
  lemma DeletedUnreferenced(s: State)
    requires Reachable(s) && Enabled(s, Delete)
    ensures var c := s.joining.value;
      References(s, c) == 0 && c !in s.listed && s.clients[c].pc == Done && s.clients[c].dead
      && s.clients[c].effects == s.clients[c].read
  {
    InvReachable(s);
    OnceInQueue(s.queue, s.joining.value);
  }

  /** The worker and the queue only ever refer to clients that exist. */
  lemma NoDanglingClient(s: State)
    requires Reachable(s)
    ensures forall c :: References(s, c) > 0 ==> c in s.clients
  {
    InvReachable(s);
    forall c: Id | References(s, c) > 0 ensures c in s.clients { OnceInQueue(s.queue, c); }
  }

  // ---------------------------------------------------------------- a connection that is handed on

  /** NQ_CONNECT was accepted for the client, as its history says. */
  predicate GaveAway(x: Client) { NqConnect(true) in x.effects }

  /** The history tells whether the client still has its connection, and ends when it has not. */
  predicate HandedOn(s: State, c: Id)
    requires c in s.clients
  {
    var x := s.clients[c];
    && (x.attached <==> !GaveAway(x))
    && (GaveAway(x) ==> !Pending(s, c))
    && (forall k :: 0 <= k < |x.effects| - 1 ==> x.effects[k] != NqConnect(true))
  }

  ghost predicate AllHandedOn(s: State) { forall c :: c in s.clients ==> HandedOn(s, c) }

  lemma HandedOnKept(s: State, step: Step)
    requires Inv(s) && AllHandedOn(s) && Enabled(s, step)
    ensures AllHandedOn(Apply(s, step))
  {
    var t := Apply(s, step);
    forall c | c in t.clients ensures HandedOn(t, c) {
      if c in s.clients {
        assert Orderly(s, c) && HandedOn(s, c);
        if step.Handle? && s.worker.c == c { HandledOnce(s, c); }
        else if step.Inline? && step.c == c { InlineOnce(s, c); }
        else { OthersKeep(s, step, c); }
      }
    }
  }

  lemma HandledOnce(s: State, c: Id)
    requires Inv(s) && c in s.clients && HandedOn(s, c) && Enabled(s, Handle) && s.worker.c == c
    ensures HandedOn(Apply(s, Handle), c)
  {
    assert Orderly(s, c);
  }

  lemma InlineOnce(s: State, c: Id)
    requires Inv(s) && c in s.clients && HandedOn(s, c) && Enabled(s, Inline(c))
    ensures HandedOn(Apply(s, Inline(c)), c)
  {
    assert Orderly(s, c);
  }

  lemma OthersKeep(s: State, step: Step, c: Id)
    requires Inv(s) && c in s.clients && HandedOn(s, c) && Enabled(s, step) && c in Apply(s, step).clients
    requires !(step.Handle? && s.worker.c == c) && !(step.Inline? && step.c == c)
    ensures HandedOn(Apply(s, step), c)
  {
    var t := Apply(s, step);
    assert Orderly(s, c) && t.clients[c].effects == s.clients[c].effects;
    assert t.clients[c].attached == s.clients[c].attached;
    assert step.Pop? ==> s.queue[0] in s.queue;
  }

  lemma {:induction false} HandedOnRuns(s: State, steps: seq<Step>)
    requires Inv(s) && AllHandedOn(s) && Runs(s, steps)
    ensures AllHandedOn(RunFrom(s, steps))
    decreases |steps|
  {
    if steps != [] {
      InvKept(s, steps[0]);
      HandedOnKept(s, steps[0]);
      HandedOnRuns(Apply(s, steps[0]), steps[1..]);
    }
  }

  /**
   * An accepted NQ_CONNECT is the last command of the client that is read and that takes effect;
   * the thread that reads for it goes on exactly as long as there was none.
   */
  lemma AcceptedConnectIsLast(s: State, c: Id, command: Command)
    requires Reachable(s) && c in s.clients
    ensures var x := s.clients[c];
      forall k :: 0 <= k < |x.effects| && x.effects[k] == NqConnect(true) ==>
        k == |x.effects| - 1 && |x.read| == |x.effects|
    ensures s.clients[c].pc == Reading ==>
      Enabled(s, ReadFails(c)) && (Enabled(s, Read(c, command)) <==> NqConnect(true) !in s.clients[c].effects)
  {
    InvReachable(s);
    var steps :| Runs(Init, steps) && RunFrom(Init, steps) == s;
    HandedOnRuns(Init, steps);
    assert Orderly(s, c) && HandedOn(s, c);
  }

  // ---------------------------------------------------------------- everybody is served, in order

  /** The client a step puts into the queue, and the one it takes out. */
  function PushedBy(step: Step): seq<Id> { if step.Push? then [step.c] else [] }

  function ServedBy(s: State, step: Step): seq<Id>
    requires Enabled(s, step)
  {
    var worker := Apply(s, step).worker;
    if step.Pop? && worker.Handling? then [worker.c] else []
  }

  ghost function PushedIn(s: State, steps: seq<Step>): seq<Id>
    requires Runs(s, steps)
    decreases |steps|
  {
    if steps == [] then [] else PushedBy(steps[0]) + PushedIn(Apply(s, steps[0]), steps[1..])
  }

  ghost function ServedIn(s: State, steps: seq<Step>): seq<Id>
    requires Runs(s, steps)
    decreases |steps|
  {
    if steps == [] then [] else ServedBy(s, steps[0]) + ServedIn(Apply(s, steps[0]), steps[1..])
  }

  lemma QueueStep(s: State, step: Step)
    requires Enabled(s, step)
    ensures s.queue + PushedBy(step) == ServedBy(s, step) + Apply(s, step).queue
  {}

  lemma Chained(before: seq<Id>, pushed: seq<Id>, more: seq<Id>, served: seq<Id>, left: seq<Id>)
    requires before + pushed == served + left
    ensures before + (pushed + more) == served + (left + more)
  {
    assert before + (pushed + more) == before + pushed + more;
    assert served + (left + more) == served + left + more;
  }

  /** The worker serves the clients in the order in which they asked, and leaves nobody out. */
  lemma {:induction false} ServedInOrder(s: State, steps: seq<Step>)
    requires Runs(s, steps)
    ensures s.queue + PushedIn(s, steps) == ServedIn(s, steps) + RunFrom(s, steps).queue
    decreases |steps|
  {
    if steps != [] {
      var t := Apply(s, steps[0]);
      QueueStep(s, steps[0]);
      Chained(s.queue, PushedBy(steps[0]), PushedIn(t, steps[1..]), ServedBy(s, steps[0]), t.queue);
      ServedInOrder(t, steps[1..]);
    }
  }

  /**
   * A client's thread can always go on by itself, unless it waits for the worker, which then has or
   * will have the client: NOTIFY is carried out by the thread, everything else is handed over.
   */
  lemma ClientGoesOn(s: State, c: Id)
    requires Reachable(s) && c in s.clients
    ensures var x := s.clients[c];
      match x.pc
      case Reading => Enabled(s, ReadFails(c))
      case Got =>
        (Enabled(s, Inline(c)) <==> !x.dead && x.command.Notify?)
        && (Enabled(s, Push(c)) <==> x.dead || !x.command.Notify?)
      case Pushed => Enabled(s, Lock(c))
      case Waiting => if References(s, c) == 0 then Enabled(s, Wake(c)) else x.locked
      case Done => x.exiting
  {
    InvReachable(s);
    assert Orderly(s, c);
    OnceInQueue(s.queue, c);
  }

  /** Connections are accepted, and clients that are to be reaped are, whenever nobody is being joined. */
  lemma ServerGoesOn(s: State)
    requires Reachable(s) && s.joining.None?
    ensures Enabled(s, Accept)
    ensures forall c :: c in s.clients ==> (s.clients[c].exiting <==> Enabled(s, Reap(c)))
  {
    InvReachable(s);
    forall c | c in s.clients && s.clients[c].exiting ensures c in s.listed { assert Orderly(s, c); }
  }

  // ---------------------------------------------------------------- the reaper's join

  /** Steps of the joined client, of the worker for it, and the deletion: none needs clients_mutex_. */
  function JoinStep(s: State): Step
    requires s.joining.Some? && s.joining.value in s.clients
  {
    var c := s.joining.value;
    match s.clients[c].pc
    case Pushed => Lock(c)
    case Waiting => if s.worker == Unlocking(c) then Unlock else Wake(c)
    case _ => Delete
  }

  /** How many of those steps are left. */
  function JoinSteps(s: State): nat
    requires s.joining.Some? && s.joining.value in s.clients
  {
    match s.clients[s.joining.value].pc
    case Pushed => 4
    case Waiting => if s.clients[s.joining.value].locked then 3 else 2
    case _ => 1
  }

  /** While the reaper joins a client under clients_mutex_, the join's next step can be taken. */
  lemma JoinNotBlocked(s: State)
    requires Reachable(s) && s.joining.Some?
    ensures s.joining.value in s.clients && Enabled(s, JoinStep(s))
    ensures JoinStep(s) == Delete
            || (var t := Apply(s, JoinStep(s));
                t.joining == s.joining && s.joining.value in t.clients && JoinSteps(t) < JoinSteps(s))
  {
    InvReachable(s);
    assert Orderly(s, s.joining.value);
  }

  /** No step of anybody makes the join longer. */
  lemma JoinNotDelayed(s: State, step: Step)
    requires Reachable(s) && s.joining.Some? && Enabled(s, step) && !step.Delete?
    ensures s.joining.value in s.clients
    ensures Apply(s, step).joining == s.joining && s.joining.value in Apply(s, step).clients
    ensures JoinSteps(Apply(s, step)) <= JoinSteps(s)
  {
    InvReachable(s);
    assert Orderly(s, s.joining.value);
  }

  /** While there is work, the worker can go on, or what it waits for can. */
  lemma WorkerNotStuck(s: State)
    requires Reachable(s) && (!s.worker.Idle? || s.queue != [])
    ensures Enabled(s, Pop) || Enabled(s, Handle) || Enabled(s, Unlock)
            || (s.worker.Unlocking? && Enabled(s, Lock(s.worker.c)))
            || (s.joining.Some? && s.joining.value in s.clients && Enabled(s, JoinStep(s)))
  {
    InvReachable(s);
    if s.joining.Some? { JoinNotBlocked(s); }
  }
}
