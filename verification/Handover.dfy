/**
 * The two places where notifications are handed over in more than one step: openSession lists the
 * session and then gives it what came early, and NQ_CONNECT registers the connection and then
 * writes what was queued.  The IRQ thread may handle the next notification at any point between.
 * One session, from its OPEN on; the engine (Engine.DoOpenDone, Engine.Attached) takes each of the
 * two as one step.
 */
module Handover {
  import opened Common
  import opened SessionSpec

  /** A notification of the session, and which one it is, counted from the OPEN. */
  datatype Note = Note(at: nat, payload: int)

  datatype Phase = Opening | HandingOver | Open | Attaching | Attached

  datatype State = State(
    gp: bool,
    phase: Phase,
    early: seq<Note>,       // MobiCoreDevice::notifications
    queue: seq<Note>,       // TrustletSession::notifications
    dead: bool,
    written: seq<Note>,
    deleted: bool,          // by the TA-exit thread
    log: seq<Note>,         // all that were handled so far
    attachedAt: nat)        // how many were handled before the connection was registered

  function Init(gp: bool): State { State(gp, Opening, [], [], false, [], false, [], 0) }

  datatype Step =
    | Arrive(payload: int)  // the IRQ thread handles a notification
    | List
    | HandOne
    | HandedOver
    | Register
    | WriteOne
    | Drained
    | Collect               // the TA-exit thread closes and deletes the session

  predicate Enabled(s: State, step: Step) {
    match step
    case Arrive(_) => !s.deleted
    case List => s.phase.Opening?
    case HandOne => s.phase.HandingOver? && s.early != []
    case HandedOver => s.phase.HandingOver? && s.early == []
    case Register => s.phase.Open? && !s.deleted
    case WriteOne => s.phase.Attaching? && s.queue != []
    case Drained => s.phase.Attaching? && s.queue == []
    // it needs mutex_mcp, which openSession holds to its end
    case Collect => !s.phase.Opening? && !s.phase.HandingOver? && s.dead && !s.deleted
  }

  /** queueNotification. */
  function Queued(gp: bool, queue: seq<Note>, dead: bool, n: Note): (seq<Note>, bool) {
    if dead then (queue, dead) else (queue + [n], gp && n.payload != 0)
  }

  function WithQueued(s: State, n: Note): State {
    var (queue, dead) := Queued(s.gp, s.queue, s.dead, n);
    s.(queue := queue, dead := dead)
  }

  function Apply(s: State, step: Step): State
    requires Enabled(s, step)
  {
    match step
    case Arrive(payload) =>
      var n := Note(|s.log|, payload);
      var t := if s.phase.Opening? then s.(early := s.early + [n])
               else if s.phase.Attaching? || s.phase.Attached? then s.(written := s.written + [n])
               else WithQueued(s, n);
      t.(log := s.log + [n])
    case List => s.(phase := HandingOver)
    case HandOne => WithQueued(s, s.early[0]).(early := s.early[1..])
    case HandedOver => s.(phase := Open)
    case Register => s.(phase := Attaching, attachedAt := |s.log|)
    case WriteOne => s.(written := s.written + [s.queue[0]], queue := s.queue[1..])
    case Drained => s.(phase := Attached)
    case Collect => s.(deleted := true)
  }

  ghost predicate Runs(s: State, steps: seq<Step>)
    decreases |steps|
  {
    steps == [] || (Enabled(s, steps[0]) && Runs(Apply(s, steps[0]), steps[1..]))
  }

  ghost function RunFrom(s: State, steps: seq<Step>): State
    requires Runs(s, steps)
    decreases |steps|
  {
    if steps == [] then s else RunFrom(Apply(s, steps[0]), steps[1..])
  }

  // ---------------------------------------------------------------- what is meant to be delivered

  predicate HasExitNote(ns: seq<Note>) { exists i :: 0 <= i < |ns| && ns[i].payload != 0 }

  /** For a GP session up to and including the first exit. */
  function Kept(gp: bool, ns: seq<Note>): seq<Note> {
    if ns == [] then []
    else
      var front := ns[..|ns| - 1];
      if gp && HasExitNote(front) then Kept(gp, front) else ns
  }

  function Before(s: State): seq<Note>
    requires s.attachedAt <= |s.log|
  {
    if s.phase.Attaching? || s.phase.Attached? then s.log[..s.attachedAt] else s.log
  }

  /** In order: what was kept before the connection was registered, and then everything. */
  function Meant(s: State): seq<Note>
    requires s.attachedAt <= |s.log|
  {
    Kept(s.gp, Before(s)) + s.log[|Before(s)|..]
  }

  /** Queueing some more, one after the other. */
  function Absorbed(gp: bool, queue: seq<Note>, dead: bool, ns: seq<Note>): (seq<Note>, bool)
    decreases |ns|
  {
    if ns == [] then (queue, dead)
    else
      var (q, d) := Queued(gp, queue, dead, ns[0]);
      Absorbed(gp, q, d, ns[1..])
  }

  /** Written, and to be written when both hand-overs are finished. */
  function Finished(s: State): seq<Note> { s.written + Absorbed(s.gp, s.queue, s.dead, s.early).0 }

  /** The step handles a notification before one that came earlier and is still being handed over. */
  predicate Overtakes(s: State, step: Step) {
    step.Arrive?
    && ((s.phase.HandingOver? && s.early != [] && !s.dead) || (s.phase.Attaching? && s.queue != []))
  }

  ghost predicate Overtaken(s: State, steps: seq<Step>)
    requires Runs(s, steps)
    decreases |steps|
  {
    steps != [] && (Overtakes(s, steps[0]) || Overtaken(Apply(s, steps[0]), steps[1..]))
  }

  // ---------------------------------------------------------------- queueing one after the other

  lemma {:induction false} AbsorbedSnoc(gp: bool, queue: seq<Note>, dead: bool, ns: seq<Note>, n: Note)
    ensures var (q, d) := Absorbed(gp, queue, dead, ns); Absorbed(gp, queue, dead, ns + [n]) == Queued(gp, q, d, n)
    decreases |ns|
  {
    if ns == [] {
      assert ([] + [n])[1..] == [];
    } else {
      var (q, d) := Queued(gp, queue, dead, ns[0]);
      assert (ns + [n])[1..] == ns[1..] + [n];
      AbsorbedSnoc(gp, q, d, ns[1..], n);
    }
  }

  lemma {:induction false} AbsorbedExtends(gp: bool, queue: seq<Note>, dead: bool, ns: seq<Note>)
    ensures queue <= Absorbed(gp, queue, dead, ns).0
    ensures dead ==> Absorbed(gp, queue, dead, ns) == (queue, true)
    ensures !dead && ns != [] ==> queue + [ns[0]] <= Absorbed(gp, queue, dead, ns).0
    decreases |ns|
  {
    if ns != [] {
      var (q, d) := Queued(gp, queue, dead, ns[0]);
      AbsorbedExtends(gp, q, d, ns[1..]);
    }
  }

  lemma KeptSnoc(gp: bool, ns: seq<Note>, n: Note)
    ensures Kept(gp, ns + [n]) == if gp && HasExitNote(ns) then Kept(gp, ns) else Kept(gp, ns) + [n]
    ensures HasExitNote(ns + [n]) <==> HasExitNote(ns) || n.payload != 0
  {
    assert (ns + [n])[..|ns|] == ns && (ns + [n])[|ns|] == n;
    KeptPrefix(gp, ns);
    if HasExitNote(ns) {
      var i :| 0 <= i < |ns| && ns[i].payload != 0;
      assert (ns + [n])[i] == ns[i];
    }
    if HasExitNote(ns + [n]) && n.payload == 0 {
      var i :| 0 <= i < |ns + [n]| && (ns + [n])[i].payload != 0;
      assert ns[i] == (ns + [n])[i];
    }
  }

  lemma {:induction false} KeptPrefix(gp: bool, ns: seq<Note>)
    ensures Kept(gp, ns) <= ns
    ensures !gp || !HasExitNote(ns) ==> Kept(gp, ns) == ns
  {
    if ns != [] {
      var front := ns[..|ns| - 1];
      KeptPrefix(gp, front);
      if HasExitNote(front) {
        var i :| 0 <= i < |front| && front[i].payload != 0;
        assert ns[i] == front[i];
      }
    }
  }

  // ---------------------------------------------------------------- what holds in any case

  ghost predicate Sane(s: State) {
    && (forall i :: 0 <= i < |s.log| ==> s.log[i].at == i)
    && s.attachedAt <= |s.log|
    && (s.phase.Opening? ==> s.queue == [] && !s.dead)
    && (s.phase.Attaching? || s.phase.Attached? || s.written == [])
    && (s.phase.Opening? || s.phase.HandingOver? || s.early == [])
    && (s.phase.Attached? ==> s.queue == [])
    && (Absorbed(s.gp, s.queue, s.dead, s.early).1 <==> s.gp && HasExitNote(Before(s)))
  }

  /** The connection is being or has been registered. */
  predicate Connected(s: State) { s.phase.Attaching? || s.phase.Attached? }

  lemma SaneArrive(s: State, payload: int)
    requires Sane(s) && Enabled(s, Arrive(payload))
    ensures Sane(Apply(s, Arrive(payload)))
  {
    var n, t := Note(|s.log|, payload), Apply(s, Arrive(payload));
    if Connected(s) {
      assert Before(t) == Before(s);
    } else {
      KeptSnoc(s.gp, s.log, n);
      AbsorbedSnoc(s.gp, s.queue, s.dead, s.early, n);
      AbsorbedExtends(s.gp, s.queue, s.dead, s.early);
      AbsorbedDead(s.gp, s.queue, s.early, n, s.dead);
    }
  }

  /** Whether one more is queued before or after the others, an exit among them makes the session dead. */
  lemma {:induction false} AbsorbedDead(gp: bool, queue: seq<Note>, ns: seq<Note>, n: Note, dead: bool)
    ensures var (q, d) := Queued(gp, queue, dead, n);
      Absorbed(gp, q, d, ns).1 <==> Absorbed(gp, queue, dead, ns).1 || (gp && n.payload != 0)
  {
    DeadExactlyWhen(gp, queue, dead, ns);
    var (q, d) := Queued(gp, queue, dead, n);
    DeadExactlyWhen(gp, q, d, ns);
  }

  lemma {:induction false} DeadExactlyWhen(gp: bool, queue: seq<Note>, dead: bool, ns: seq<Note>)
    ensures Absorbed(gp, queue, dead, ns).1 <==> dead || (gp && HasExitNote(ns))
    decreases |ns|
  {
    if ns != [] {
      var (q, d) := Queued(gp, queue, dead, ns[0]);
      DeadExactlyWhen(gp, q, d, ns[1..]);
      if HasExitNote(ns[1..]) {
        var i :| 0 <= i < |ns[1..]| && ns[1..][i].payload != 0;
        assert ns[i + 1].payload != 0;
      }
      if HasExitNote(ns) && ns[0].payload == 0 {
        var i :| 0 <= i < |ns| && ns[i].payload != 0;
        assert ns[1..][i - 1].payload != 0;
      }
    }
  }

  lemma SaneStep(s: State, step: Step)
    requires Sane(s) && Enabled(s, step)
    ensures Sane(Apply(s, step))
  {
    match step
    case Arrive(payload) => SaneArrive(s, payload);
    case Register => assert s.log[..|s.log|] == s.log;
    case _ =>
  }

  // ---------------------------------------------------------------- in order, as long as nothing overtakes

  lemma MeantConnected(s: State, t: State, n: Note)
    requires Sane(s) && Connected(s) && t == s.(log := s.log + [n], written := s.written + [n])
    ensures Meant(t) == Meant(s) + [n]
  {
    var a := s.attachedAt;
    assert t.log[..a] == s.log[..a] && t.log[a..] == s.log[a..] + [n];
  }

  lemma MeantAlone(s: State)
    requires Sane(s) && !Connected(s)
    ensures Meant(s) == Kept(s.gp, s.log)
  {
    assert s.log[|s.log|..] == [];
  }

  lemma MeantArrives(s: State, payload: int)
    requires Sane(s) && Enabled(s, Arrive(payload))
    ensures var t := Apply(s, Arrive(payload)); t.attachedAt <= |t.log| && Meant(s) <= Meant(t)
  {
    var n, t := Note(|s.log|, payload), Apply(s, Arrive(payload));
    if Connected(s) {
      MeantConnected(s, t, n);
    } else {
      SaneArrive(s, payload);
      MeantAlone(s);
      MeantAlone(t);
      KeptSnoc(s.gp, s.log, n);
    }
  }

  lemma MeantGrows(s: State, step: Step)
    requires Sane(s) && Enabled(s, step)
    ensures Apply(s, step).attachedAt <= |Apply(s, step).log| && Meant(s) <= Meant(Apply(s, step))
    ensures !step.Arrive? ==> Meant(Apply(s, step)) == Meant(s)
  {
    match step
    case Arrive(payload) => MeantArrives(s, payload);
    case Register => assert s.log[..|s.log|] == s.log;
    case _ =>
  }

  /** What is queued in the end is what would be, and then the new one. */
  lemma AbsorbedArrives(s: State, n: Note)
    requires Sane(s) && !Connected(s) && !(s.phase.HandingOver? && s.early != [] && !s.dead)
    ensures var t := if s.phase.Opening? then s.(early := s.early + [n]) else WithQueued(s, n);
      var (q, d) := Absorbed(s.gp, s.queue, s.dead, s.early);
      Absorbed(s.gp, t.queue, t.dead, t.early) == Queued(s.gp, q, d, n)
  {
    if s.phase.Opening? {
      AbsorbedSnoc(s.gp, s.queue, s.dead, s.early, n);
    } else {
      AbsorbedExtends(s.gp, s.queue, s.dead, s.early);
    }
  }

  lemma InOrderQueued(s: State, payload: int)
    requires Sane(s) && Enabled(s, Arrive(payload)) && !Overtakes(s, Arrive(payload)) && Finished(s) == Meant(s)
    requires !Connected(s)
    ensures Finished(Apply(s, Arrive(payload))) == Meant(Apply(s, Arrive(payload)))
  {
    var n, t := Note(|s.log|, payload), Apply(s, Arrive(payload));
    KeptSnoc(s.gp, s.log, n);
    AbsorbedArrives(s, n);
    assert Finished(s) == Absorbed(s.gp, s.queue, s.dead, s.early).0;
    assert Finished(t) == Absorbed(t.gp, t.queue, t.dead, t.early).0;
    assert Meant(s) == Kept(s.gp, s.log) && Meant(t) == Kept(s.gp, s.log + [n]);
  }

  lemma InOrderWritten(s: State, payload: int)
    requires Sane(s) && Enabled(s, Arrive(payload)) && !Overtakes(s, Arrive(payload)) && Finished(s) == Meant(s)
    requires Connected(s)
    ensures Finished(Apply(s, Arrive(payload))) == Meant(Apply(s, Arrive(payload)))
  {
    var n, t := Note(|s.log|, payload), Apply(s, Arrive(payload));
    MeantConnected(s, t, n);
    assert Finished(s) == s.written && Finished(t) == s.written + [n];
  }

  lemma InOrderStep(s: State, step: Step)
    requires Sane(s) && Enabled(s, step) && !Overtakes(s, step) && Finished(s) == Meant(s)
    ensures Apply(s, step).attachedAt <= |Apply(s, step).log|
    ensures Finished(Apply(s, step)) == Meant(Apply(s, step))
  {
    if !step.Arrive? { MeantGrows(s, step); }
    else if Connected(s) { InOrderWritten(s, step.payload); }
    else { InOrderQueued(s, step.payload); }
  }

  // ---------------------------------------------------------------- out of order for ever after

  /** Something that is meant to come earlier is not there before the k-th that is. */
  ghost predicate BehindAt(s: State, k: nat, e: Note)
    requires s.attachedAt <= |s.log|
  {
    var w := s.written + s.queue;
    k < |w| && e in Meant(s) && e.at < w[k].at && e !in w[..k]
  }

  lemma MeantIncreases(s: State, i: nat, j: nat)
    requires Sane(s) && i < j < |Meant(s)|
    ensures Meant(s)[i].at < Meant(s)[j].at
    ensures Meant(s)[j] in s.log && Meant(s)[j].at < |s.log|
  {
    var b := Before(s);
    KeptPrefix(s.gp, b);
    var c := |Kept(s.gp, b)|;
    assert b == s.log[..|b|];
    assert Meant(s)[i] == if i < c then s.log[i] else s.log[|b| + i - c];
    assert Meant(s)[j] == if j < c then s.log[j] else s.log[|b| + j - c];
  }

  lemma MeantIsLogged(s: State, e: Note)
    requires Sane(s) && e in Meant(s)
    ensures e.at < |s.log|
  {
    KeptPrefix(s.gp, Before(s));
  }

  lemma EarlierIsBefore(s: State, k: nat, e: Note)
    requires Sane(s) && k < |Meant(s)| && e in Meant(s) && e.at < Meant(s)[k].at
    ensures e in Meant(s)[..k]
  {
    var j :| 0 <= j < |Meant(s)| && Meant(s)[j] == e;
    if k < j { MeantIncreases(s, k, j); }
    assert Meant(s)[..k][j] == e;
  }

  lemma BehindIsWrong(s: State, k: nat, e: Note)
    requires Sane(s) && BehindAt(s, k, e)
    ensures Finished(s) != Meant(s)
  {
    var w := s.written + s.queue;
    AbsorbedExtends(s.gp, s.queue, s.dead, s.early);
    assert w <= Finished(s);
    if Finished(s) == Meant(s) {
      assert Meant(s)[k] == w[k] && Meant(s)[..k] == w[..k];
      EarlierIsBefore(s, k, e);
    }
  }

  /** One more in the middle. */
  lemma Inserted(a: seq<Note>, b: seq<Note>, n: Note, k: nat, e: Note)
    requires k < |a + b| && e !in (a + b)[..k] && n != e
    ensures var m := if k < |a| then k else k + 1;
      m < |a + [n] + b| && (a + [n] + b)[m] == (a + b)[k] && e !in (a + [n] + b)[..m]
  {
    var m := if k < |a| then k else k + 1;
    forall i | 0 <= i < m ensures (a + [n] + b)[i] != e {
      if i < |a| { assert (a + b)[..k][i] == a[i]; }
      else if i > |a| { assert (a + b)[..k][i - 1] == b[i - 1 - |a|]; }
    }
  }

  lemma BehindArrival(s: State, payload: int, k: nat, e: Note)
    requires Sane(s) && Enabled(s, Arrive(payload)) && BehindAt(s, k, e) && Connected(s)
    ensures Sane(Apply(s, Arrive(payload)))
    ensures BehindAt(Apply(s, Arrive(payload)), if k < |s.written| then k else k + 1, e)
  {
    SaneArrive(s, payload);
    MeantGrows(s, Arrive(payload));
    MeantIsLogged(s, e);
    Inserted(s.written, s.queue, Note(|s.log|, payload), k, e);
  }

  /** Any other step adds at the end, if anything. */
  lemma OnlyAdds(s: State, step: Step)
    requires Sane(s) && Enabled(s, step) && !(step.Arrive? && Connected(s))
    ensures s.written + s.queue <= Apply(s, step).written + Apply(s, step).queue
  {}

  lemma BehindStays(s: State, step: Step, k: nat, e: Note)
    requires Sane(s) && Enabled(s, step) && BehindAt(s, k, e)
    ensures Sane(Apply(s, step)) && exists m: nat :: BehindAt(Apply(s, step), m, e)
  {
    if step.Arrive? && Connected(s) {
      BehindArrival(s, step.payload, k, e);
    } else {
      SaneStep(s, step);
      MeantGrows(s, step);
      OnlyAdds(s, step);
      var t := Apply(s, step);
      assert (t.written + t.queue)[..k] == (s.written + s.queue)[..k];
      assert BehindAt(t, k, e);
    }
  }

  /** The first that is meant to come and does not come is behind the one that comes instead. */
  lemma NowBehind(s: State, t: State, at: nat, n: Note)
    requires Sane(s) && Sane(t) && at < |Meant(s)| && Meant(s) <= Meant(t) && n.at == |s.log|
    requires var w := t.written + t.queue; at < |w| && w[at] == n && w[..at] == Meant(s)[..at]
    ensures BehindAt(t, at, Meant(s)[at])
  {
    MeantIsLogged(s, Meant(s)[at]);
    forall i | 0 <= i < at ensures Meant(s)[..at][i] != Meant(s)[at] { MeantIncreases(s, i, at); }
  }

  lemma OvertakingIsBehind(s: State, step: Step)
    requires Sane(s) && Enabled(s, step) && Overtakes(s, step) && Finished(s) == Meant(s)
    ensures Sane(Apply(s, step)) && exists k: nat, e :: BehindAt(Apply(s, step), k, e)
  {
    SaneStep(s, step);
    MeantGrows(s, step);
    var t, n := Apply(s, step), Note(|s.log|, step.payload);
    var at := if s.phase.Attaching? then |s.written| else |s.queue|;
    if s.phase.Attaching? {
      assert Meant(s)[..at] == s.written;
    } else {
      AbsorbedExtends(s.gp, s.queue, s.dead, s.early);
      assert Finished(s) == Absorbed(s.gp, s.queue, s.dead, s.early).0;
      assert Meant(s)[..at] == s.queue;
    }
    NowBehind(s, t, at, n);
  }

  lemma {:induction false} BehindRuns(s: State, steps: seq<Step>, k: nat, e: Note)
    requires Sane(s) && Runs(s, steps) && BehindAt(s, k, e)
    ensures Sane(RunFrom(s, steps)) && Finished(RunFrom(s, steps)) != Meant(RunFrom(s, steps))
    decreases |steps|
  {
    if steps == [] {
      BehindIsWrong(s, k, e);
    } else {
      BehindStays(s, steps[0], k, e);
      var m: nat :| BehindAt(Apply(s, steps[0]), m, e);
      BehindRuns(Apply(s, steps[0]), steps[1..], m, e);
    }
  }

  lemma {:induction false} InOrderFrom(s: State, steps: seq<Step>)
    requires Sane(s) && Runs(s, steps) && Finished(s) == Meant(s)
    ensures Sane(RunFrom(s, steps))
    ensures Finished(RunFrom(s, steps)) == Meant(RunFrom(s, steps)) <==> !Overtaken(s, steps)
    decreases |steps|
  {
    if steps != [] {
      var t := Apply(s, steps[0]);
      SaneStep(s, steps[0]);
      if Overtakes(s, steps[0]) {
        OvertakingIsBehind(s, steps[0]);
        var k: nat, e :| BehindAt(t, k, e);
        BehindRuns(t, steps[1..], k, e);
      } else {
        InOrderStep(s, steps[0]);
        InOrderFrom(t, steps[1..]);
      }
    }
  }

  /**
   * Whatever the threads do, what is written and still to be written is what is meant to be
   * delivered, in the same order, exactly if no notification was handled while an earlier one was
   * still being handed over.
   */
  lemma InOrderExactlyWhen(gp: bool, steps: seq<Step>)
    requires Runs(Init(gp), steps)
    ensures var s := RunFrom(Init(gp), steps);
      && s.attachedAt <= |s.log|
      && (Finished(s) == Meant(s) <==> !Overtaken(Init(gp), steps))
      && (s.early == [] && s.queue == [] ==> Finished(s) == s.written)
  {
    InOrderFrom(Init(gp), steps);
  }

  // ---------------------------------------------------------------- what an overtaking can do

  lemma {:induction false} LegacyFrom(s: State, steps: seq<Step>)
    requires Runs(s, steps) && !s.gp && !s.dead && multiset(s.written + s.queue + s.early) == multiset(s.log)
    ensures var t := RunFrom(s, steps); multiset(t.written + t.queue + t.early) == multiset(t.log)
    decreases |steps|
  {
    if steps != [] {
      LegacyStep(s, steps[0]);
      LegacyFrom(Apply(s, steps[0]), steps[1..]);
    }
  }

  lemma OneInTheMiddle(a: seq<Note>, b: seq<Note>, n: Note)
    ensures multiset(a + [n] + b) == multiset(a + b) + multiset{n}
  {}

  lemma LegacyStep(s: State, step: Step)
    requires Enabled(s, step) && !s.gp && !s.dead && multiset(s.written + s.queue + s.early) == multiset(s.log)
    ensures var t := Apply(s, step);
      !t.gp && !t.dead && multiset(t.written + t.queue + t.early) == multiset(t.log)
  {
    var t := Apply(s, step);
    match step
    case Arrive(payload) => LegacyArrives(s, payload);
    case HandOne => assert t.written + t.queue + t.early == s.written + s.queue + s.early;
    case WriteOne => assert t.written + t.queue + t.early == s.written + s.queue + s.early;
    case _ =>
  }

  lemma LegacyArrives(s: State, payload: int)
    requires Enabled(s, Arrive(payload)) && !s.gp && !s.dead
    requires multiset(s.written + s.queue + s.early) == multiset(s.log)
    ensures var t := Apply(s, Arrive(payload));
      !t.gp && !t.dead && multiset(t.written + t.queue + t.early) == multiset(t.log)
  {
    var n, t := Note(|s.log|, payload), Apply(s, Arrive(payload));
    if Connected(s) {
      OneInTheMiddle(s.written, s.queue + s.early, n);
      assert t.written + t.queue + t.early == s.written + [n] + (s.queue + s.early);
      assert s.written + s.queue + s.early == s.written + (s.queue + s.early);
    } else if s.phase.Opening? {
      assert t.written + t.queue + t.early == s.written + s.queue + s.early + [n];
    } else {
      OneInTheMiddle(s.written + s.queue, s.early, n);
      assert t.written + t.queue + t.early == s.written + s.queue + [n] + s.early;
    }
  }

  /** A legacy session loses nothing and gets nothing twice, whatever overtakes what. */
  lemma LegacyLosesNothing(steps: seq<Step>)
    requires Runs(Init(false), steps)
    ensures var t := RunFrom(Init(false), steps); multiset(t.written + t.queue + t.early) == multiset(t.log)
  {
    LegacyFrom(Init(false), steps);
  }

  /** A session is deleted while its queue is being written exactly if its exit came before NQ_CONNECT. */
  lemma CollectedWhileAttaching(gp: bool, steps: seq<Step>)
    requires Runs(Init(gp), steps) && RunFrom(Init(gp), steps).phase.Attaching?
    ensures var s := RunFrom(Init(gp), steps);
      s.attachedAt <= |s.log| && (!s.deleted ==> (Enabled(s, Collect) <==> gp && HasExitNote(s.log[..s.attachedAt])))
  {
    InOrderFrom(Init(gp), steps);
    SameKind(Init(gp), steps);
  }

  lemma {:induction false} SameKind(s: State, steps: seq<Step>)
    requires Runs(s, steps)
    ensures RunFrom(s, steps).gp == s.gp
    decreases |steps|
  {
    if steps != [] { SameKind(Apply(s, steps[0]), steps[1..]); }
  }

  ghost predicate Reached(s: State) {
    exists steps :: Runs(Init(s.gp), steps) && RunFrom(Init(s.gp), steps) == s
  }

  lemma {:induction false} OneMore(s: State, steps: seq<Step>, step: Step)
    requires Runs(s, steps) && Enabled(RunFrom(s, steps), step)
    ensures Runs(s, steps + [step]) && RunFrom(s, steps + [step]) == Apply(RunFrom(s, steps), step)
    decreases |steps|
  {
    if steps == [] {
      assert [] + [step] == [step] && [step][1..] == [];
    } else {
      assert (steps + [step])[1..] == steps[1..] + [step];
      OneMore(Apply(s, steps[0]), steps[1..], step);
    }
  }

  lemma Go(s: State, step: Step, t: State)
    requires Reached(s) && Enabled(s, step) && Apply(s, step) == t && t.gp == s.gp
    ensures Reached(t)
  {
    var steps :| Runs(Init(s.gp), steps) && RunFrom(Init(s.gp), steps) == s;
    OneMore(Init(s.gp), steps, step);
  }

  lemma InitReached(gp: bool)
    ensures Reached(Init(gp))
  {
    assert Runs(Init(gp), []) && RunFrom(Init(gp), []) == Init(gp);
  }

  /** One notification while the session is being opened, the next when it is listed. */
  lemma TwoCome(gp: bool, a: int, b: int)
    ensures Reached(Init(gp).(phase := HandingOver, early := [Note(0, a)], queue := [Note(1, b)], dead := gp && b != 0,
                              log := [Note(0, a), Note(1, b)]))
  {
    InitReached(gp);
    var s := Init(gp).(early := [Note(0, a)], log := [Note(0, a)]);
    Go(Init(gp), Arrive(a), s);
    Go(s, List, s.(phase := HandingOver));
    Go(s.(phase := HandingOver), Arrive(b),
       s.(phase := HandingOver, queue := [Note(1, b)], dead := gp && b != 0, log := [Note(0, a), Note(1, b)]));
  }

  /** A legacy session gets its notifications in the wrong order. */
  lemma LegacyOutOfOrder()
    ensures Reached(State(false, Attached, [], [], false, [Note(1, 2), Note(0, 1)], false, [Note(0, 1), Note(1, 2)], 2))
  {
    TwoCome(false, 1, 2);
    var s := Init(false).(phase := HandingOver, early := [Note(0, 1)], queue := [Note(1, 2)],
                          log := [Note(0, 1), Note(1, 2)]);
    var s1 := s.(early := [], queue := [Note(1, 2), Note(0, 1)]);
    Go(s, HandOne, s1);
    Go(s1, HandedOver, s1.(phase := Open));
    var s2 := s1.(phase := Attaching, attachedAt := 2);
    Go(s1.(phase := Open), Register, s2);
    var s3 := s2.(written := [Note(1, 2)], queue := [Note(0, 1)]);
    Go(s2, WriteOne, s3);
    var s4 := s3.(written := [Note(1, 2), Note(0, 1)], queue := []);
    Go(s3, WriteOne, s4);
    Go(s4, Drained, s4.(phase := Attached));
  }

  /** A GP session's exit overtakes a plain notification, which is lost. */
  lemma GpLoses()
    ensures Reached(State(true, Open, [], [Note(1, 1)], true, [], false, [Note(0, 0), Note(1, 1)], 0))
  {
    TwoCome(true, 0, 1);
    var s := Init(true).(phase := HandingOver, early := [Note(0, 0)], queue := [Note(1, 1)], dead := true,
                         log := [Note(0, 0), Note(1, 1)]);
    Go(s, HandOne, s.(early := []));
    Go(s.(early := []), HandedOver, s.(early := [], phase := Open));
  }

  /** The session is deleted, and there is still something of it to be written. */
  lemma WrittenAfterDeletion()
    ensures exists s :: Reached(s) && s.deleted && Enabled(s, WriteOne)
  {
    GpLoses();
    var s := State(true, Open, [], [Note(1, 1)], true, [], false, [Note(0, 0), Note(1, 1)], 0);
    var s1 := s.(phase := Attaching, attachedAt := 2);
    Go(s, Register, s1);
    Go(s1, Collect, s1.(deleted := true));
    assert Enabled(s1.(deleted := true), WriteOne);
  }

  // ---------------------------------------------------------------- the same rules as elsewhere

  function Plain(sid: Sid, ns: seq<Note>): seq<Notification> {
    if ns == [] then [] else Plain(sid, ns[..|ns| - 1]) + [Notification(sid, ns[|ns| - 1].payload)]
  }

  lemma {:induction false} PlainHasExit(sid: Sid, ns: seq<Note>)
    ensures |Plain(sid, ns)| == |ns| && (HasExit(Plain(sid, ns)) <==> HasExitNote(ns))
    ensures ns != [] ==> Plain(sid, ns)[..|ns| - 1] == Plain(sid, ns[..|ns| - 1])
  {
    if ns != [] {
      var front, last := ns[..|ns| - 1], ns[|ns| - 1];
      PlainHasExit(sid, front);
      CutSnoc(Plain(sid, front), Notification(sid, last.payload));
      KeptSnoc(true, front, last);
      assert front + [last] == ns;
    }
  }

  /** What is kept is what the engine delivers: the cut of a GP session's notifications. */
  lemma {:induction false} KeptIsCut(gp: bool, sid: Sid, ns: seq<Note>)
    ensures Plain(sid, Kept(gp, ns)) == if gp then Cut(Plain(sid, ns)) else Plain(sid, ns)
  {
    if ns != [] {
      var front := ns[..|ns| - 1];
      KeptIsCut(gp, sid, front);
      PlainHasExit(sid, ns);
      PlainHasExit(sid, front);
    }
  }

  /** And queueing is that of the session object, as long as no close is under way. */
  lemma QueuedIsSpec(x: Session, queue: seq<Note>, dead: bool, n: Note)
    requires x.state == (if dead then TaDead else TaRunning) && x.queue == Plain(x.sessionId, queue)
    ensures var (q, d) := Queued(x.gp, queue, dead, n);
      QueueNotification(x, Notification(x.sessionId, n.payload))
      == x.(queue := Plain(x.sessionId, q), state := if d then TaDead else TaRunning)
  {
    assert (queue + [n])[..|queue|] == queue;
  }
}
