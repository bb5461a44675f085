/**
 * MobiCoreDevice::close and what it calls, in place: the search from the end of the session list,
 * closeSession with its deferral, and freeSession, while notifications keep arriving.
 */
module Device {
  import opened Common
  import opened SessionSpec
  import E = Engine

  datatype Answer = Ok | TaskFailed | Refused

  /** The secure world's answer to one close command, and what it sends before that answer. */
  datatype Reply = Reply(answer: Answer, meanwhile: seq<Notification>)

  datatype CloseResult = UnknownSession | Closed | Deferred | Failed(answer: Answer)

  // ---------------------------------------------------------------- relations between lists

  /** The IRQ thread changes only the state, the queue and what was forwarded. */
  predicate Disturbed(a: Session, b: Session) {
    b == a.(state := b.state, queue := b.queue, written := b.written) && (a.state == TaDead ==> b.state == TaDead)
  }

  predicate Alike(a: seq<Session>, b: seq<Session>) {
    |a| == |b| && forall k :: 0 <= k < |a| ==> Disturbed(a[k], b[k])
  }

  predicate Owns(c: Conn, x: Session) { x.owner == Some(c) }

  /** A GP session whose close was deferred: it has lost its client and its connection. */
  predicate Orphaned(a: Session, b: Session) {
    a.gp && b == a.(owner := None, nq := None, state := b.state, queue := b.queue, written := b.written)
  }

  /**
   * The list after a device close: every session of another connection is still there and in its
   * place, those of this one are gone, or orphaned if they are GP sessions.
   */
  predicate Swept(a: seq<Session>, b: seq<Session>, c: Conn) {
    if a == [] then b == []
    else if !Owns(c, a[0]) then b != [] && Disturbed(a[0], b[0]) && Swept(a[1..], b[1..], c)
    else Swept(a[1..], b, c) || (b != [] && Orphaned(a[0], b[0]) && Swept(a[1..], b[1..], c))
  }

  /** The ids of the connection's sessions, latest opened first. */
  function OwnedReversed(a: seq<Session>, c: Conn): seq<Sid> {
    if a == [] then []
    else OwnedReversed(a[1..], c) + if Owns(c, a[0]) then [a[0].sessionId] else []
  }

  ghost predicate DistinctIds(a: seq<Session>) {
    forall i, j :: 0 <= i < j < |a| ==> a[i].sessionId != a[j].sessionId
  }

  function Without(a: seq<Session>, i: nat): seq<Session>
    requires i < |a|
  {
    a[..i] + a[i + 1..]
  }

  lemma {:induction false} SweptAlike(a: seq<Session>, b: seq<Session>, d: seq<Session>, c: Conn)
    requires Swept(a, b, c) && Alike(b, d)
    ensures Swept(a, d, c)
    decreases |a|
  {
    if a != [] {
      if !Owns(c, a[0]) {
        SweptAlike(a[1..], b[1..], d[1..], c);
      } else if Swept(a[1..], b, c) {
        SweptAlike(a[1..], b, d, c);
      } else {
        SweptAlike(a[1..], b[1..], d[1..], c);
      }
    }
  }

  /** Nothing in front of the sessions already swept belongs to the connection. */
  lemma {:induction false} SweptSkip(a: seq<Session>, b: seq<Session>, n: nat, c: Conn)
    requires n <= |a| && n <= |b| && Alike(a[..n], b[..n]) && Swept(a[n..], b[n..], c)
    requires forall k :: 0 <= k < n ==> !Owns(c, a[k])
    ensures Swept(a, b, c)
    ensures OwnedReversed(a, c) == OwnedReversed(a[n..], c)
    decreases |a|
  {
    if n > 0 {
      assert a[1..][..n - 1] == a[..n][1..] && b[1..][..n - 1] == b[..n][1..];
      assert a[1..][n - 1..] == a[n..] && b[1..][n - 1..] == b[n..];
      SweptSkip(a[1..], b[1..], n - 1, c);
      assert OwnedReversed(a[1..], c) + [] == OwnedReversed(a[n..], c);
    } else {
      assert a[0..] == a && b[0..] == b;
    }
  }

  /** What Swept means for one connection: it owns nothing any more. */
  lemma {:induction false} SweptOwnsNothing(a: seq<Session>, b: seq<Session>, c: Conn)
    requires Swept(a, b, c)
    ensures forall x :: x in b ==> !Owns(c, x)
    decreases |a|
  {
    if a != [] {
      if !Owns(c, a[0]) {
        SweptOwnsNothing(a[1..], b[1..], c);
      } else if Swept(a[1..], b, c) {
        SweptOwnsNothing(a[1..], b, c);
      } else {
        SweptOwnsNothing(a[1..], b[1..], c);
      }
    }
  }

  /** The sessions of other connections. */
  function Foreign(a: seq<Session>, c: Conn): seq<Session> {
    if a == [] then [] else (if Owns(c, a[0]) then [] else [a[0]]) + Foreign(a[1..], c)
  }

  function OutsideOf(b: seq<Session>, ids: set<Sid>): seq<Session> {
    if b == [] then [] else (if b[0].sessionId in ids then [] else [b[0]]) + OutsideOf(b[1..], ids)
  }

  /** What Swept means for everybody else: with `ids` those of the connection's own sessions. */
  lemma {:induction false} SweptKeepsOthers(a: seq<Session>, b: seq<Session>, c: Conn, ids: set<Sid>)
    requires Swept(a, b, c) && forall x :: x in a ==> (x.sessionId in ids <==> Owns(c, x))
    ensures Alike(Foreign(a, c), OutsideOf(b, ids))
    decreases |a|
  {
    if a == [] {
    } else if Owns(c, a[0]) && Swept(a[1..], b, c) {
      SweptKeepsOthers(a[1..], b, c, ids);
    } else {
      SweptKeepsOthers(a[1..], b[1..], c, ids);
    }
  }

  // ---------------------------------------------------------------- notifications on the way to an answer

  /** The first session with the id gets the notification. */
  function Handled(a: seq<Session>, n: Notification): (r: seq<Session>)
    ensures Alike(a, r)
  {
    if a == [] then []
    else if a[0].sessionId == n.sessionId then [E.Delivered(a[0], n)] + a[1..]
    else [a[0]] + Handled(a[1..], n)
  }

  /** It had neither a notification connection nor a client, so the TA-exit thread is woken. */
  function WakeUps(a: seq<Session>, n: Notification): nat {
    if a == [] then 0
    else if a[0].sessionId == n.sessionId then (if a[0].nq.None? && a[0].owner.None? then 1 else 0)
    else WakeUps(a[1..], n)
  }

  predicate FirstWith(a: seq<Session>, k: int, sid: Sid) {
    0 <= k < |a| && a[k].sessionId == sid && forall j :: 0 <= j < k ==> a[j].sessionId != sid
  }

  /** Which session that is, and that there is no more to it. */
  lemma {:induction false} HandledIsFirst(a: seq<Session>, n: Notification, k: nat)
    requires k <= |a| && forall j :: 0 <= j < k ==> a[j].sessionId != n.sessionId
    ensures k == |a| ==> Handled(a, n) == a && WakeUps(a, n) == 0
    ensures FirstWith(a, k, n.sessionId) ==>
      Handled(a, n) == a[k := E.Delivered(a[k], n)]
      && WakeUps(a, n) == if a[k].nq.None? && a[k].owner.None? then 1 else 0
  {
    if k > 0 { HandledIsFirst(a[1..], n, k - 1); }
  }

  function HandledAll(a: seq<Session>, ns: seq<Notification>): (r: seq<Session>)
    ensures Alike(a, r)
  {
    if ns == [] then a else Handled(HandledAll(a, ns[..|ns| - 1]), ns[|ns| - 1])
  }

  function WakeUpsAll(a: seq<Session>, ns: seq<Notification>): nat {
    if ns == [] then 0
    else
      var front := ns[..|ns| - 1];
      WakeUpsAll(a, front) + WakeUps(HandledAll(a, front), ns[|ns| - 1])
  }

  /** What comes next from the secure world; nothing left means a plain Ok. */
  function Next(replies: seq<Reply>): Reply { if replies == [] then Reply(Ok, []) else replies[0] }

  function Rest(replies: seq<Reply>): seq<Reply> { if replies == [] then [] else replies[1..] }

  // ---------------------------------------------------------------- the order of the close commands

  /** Each id where it is sent for the first time. */
  function Firsts(sent: seq<Sid>): seq<Sid> {
    if sent == [] then []
    else
      var front, last := sent[..|sent| - 1], sent[|sent| - 1];
      Firsts(front) + if last in front then [] else [last]
  }

  lemma {:induction false} FirstsSame(sent: seq<Sid>, sid: Sid)
    ensures sid in Firsts(sent) <==> sid in sent
  {
    if sent != [] {
      FirstsSame(sent[..|sent| - 1], sid);
      assert sent == sent[..|sent| - 1] + [sent[|sent| - 1]];
    }
  }

  lemma FirstsNext(sent: seq<Sid>, sid: Sid)
    ensures Firsts(sent + [sid]) == Firsts(sent) + if sid in Firsts(sent) then [] else [sid]
  {
    FirstsSame(sent, sid);
    assert (sent + [sid])[..|sent|] == sent;
  }

  lemma {:induction false} NotAmongOwned(a: seq<Session>, c: Conn, sid: Sid)
    requires forall i :: 0 <= i < |a| ==> a[i].sessionId != sid
    ensures sid !in OwnedReversed(a, c)
  {
    if a != [] { NotAmongOwned(a[1..], c, sid); }
  }

  lemma OwnedReversedFrom(a: seq<Session>, j: nat, c: Conn)
    requires DistinctIds(a) && j < |a| && Owns(c, a[j])
    ensures OwnedReversed(a[j..], c) == OwnedReversed(a[j + 1..], c) + [a[j].sessionId]
    ensures a[j].sessionId !in OwnedReversed(a[j + 1..], c)
  {
    assert a[j..][0] == a[j] && a[j..][1..] == a[j + 1..];
    NotAmongOwned(a[j + 1..], c, a[j].sessionId);
  }

  /** One or two commands to the last owned session, which may have been sent some already. */
  lemma NextAsked(a: seq<Session>, sent: seq<Sid>, more: seq<Sid>, j: nat, m: nat, k: nat, c: Conn)
    requires DistinctIds(a) && j < k <= |a| && Owns(c, a[j]) && (m == j || m == k)
    requires more == [a[j].sessionId] || more == [a[j].sessionId, a[j].sessionId]
    requires OwnedReversed(a[j + 1..], c) == OwnedReversed(a[k..], c)
    requires Firsts(sent) == OwnedReversed(a[m..], c)
    ensures Firsts(sent + more) == OwnedReversed(a[j..], c)
  {
    OwnedReversedFrom(a, j, c);
    SentTo(sent, more, a[j].sessionId);
  }

  lemma SentTo(sent: seq<Sid>, more: seq<Sid>, sid: Sid)
    requires more == [sid] || more == [sid, sid]
    ensures Firsts(sent + more) == Firsts(sent) + if sid in Firsts(sent) then [] else [sid]
  {
    FirstsNext(sent, sid);
    if more != [sid] {
      assert sent + more == sent + [sid] + [sid];
      FirstsNext(sent + [sid], sid);
    }
  }

  /** Only the i-th session was disconnected, if GP; for the rest only the IRQ thread was active. */
  predicate InPlace(a: seq<Session>, b: seq<Session>, i: nat) {
    && i < |a| == |b|
    && (forall k :: 0 <= k < |a| && k != i ==> Disturbed(a[k], b[k]))
    && (if a[i].gp then Orphaned(a[i], b[i]) else Disturbed(a[i], b[i]))
  }

  lemma DisconnectedInPlace(a: seq<Session>, d: seq<Session>, b: seq<Session>, i: nat)
    requires i < |a| && d == a[i := E.Disconnected(a[i])] && Alike(d, b)
    ensures InPlace(a, b, i)
  {
    forall k | 0 <= k < |a| && k != i ensures Disturbed(a[k], b[k]) { assert Disturbed(d[k], b[k]); }
    assert Disturbed(d[i], b[i]);
  }

  lemma InPlaceAlike(a: seq<Session>, d: seq<Session>, b: seq<Session>, i: nat)
    requires InPlace(a, d, i) && Alike(d, b)
    ensures InPlace(a, b, i)
  {
    forall k | 0 <= k < |a| && k != i ensures Disturbed(a[k], b[k]) {
      assert Disturbed(a[k], d[k]) && Disturbed(d[k], b[k]);
    }
    assert Disturbed(d[i], b[i]);
  }

  lemma DisconnectedIds(a: seq<Session>, d: seq<Session>, i: nat)
    requires DistinctIds(a) && i < |a| && d == a[i := E.Disconnected(a[i])]
    ensures DistinctIds(d)
  {}

  lemma InPlaceIds(a: seq<Session>, b: seq<Session>, i: nat)
    requires InPlace(a, b, i) && DistinctIds(a)
    ensures DistinctIds(b) && DistinctIds(Without(b, i))
  {
    forall k | 0 <= k < |a| ensures b[k].sessionId == a[k].sessionId {
      assert k == i || Disturbed(a[k], b[k]);
    }
  }

  lemma WithoutInPlace(a: seq<Session>, b: seq<Session>, i: nat)
    requires InPlace(a, b, i)
    ensures Alike(Without(a, i), Without(b, i))
  {
    forall k | 0 <= k < |a| - 1 ensures Disturbed(Without(a, i)[k], Without(b, i)[k]) {
      assert Disturbed(a[if k < i then k else k + 1], b[if k < i then k else k + 1]);
    }
  }

  /** One closeSession: the i-th session was asked for, and only it left or lost its owner. */
  predicate ClosedAt(a: seq<Session>, b: seq<Session>, i: nat, c: Conn, sid: Sid, gone: bool) {
    && i < |a| && Owns(c, a[i]) && a[i].sessionId == sid
    && if gone then Alike(Without(a, i), b) else InPlace(a, b, i)
  }

  predicate LastAt(a: seq<Session>, j: nat, c: Conn) {
    j < |a| && Owns(c, a[j]) && forall k :: j < k < |a| ==> !Owns(c, a[k])
  }

  lemma LastIsBefore(a: seq<Session>, b: seq<Session>, j: nat, k: nat, c: Conn)
    requires k <= |a| && k <= |b| && Swept(a[k..], b[k..], c) && LastAt(b, j, c)
    ensures j < k
  {
    SweptOwnsNothing(a[k..], b[k..], c);
    forall i | k <= i < |b| ensures !Owns(c, b[i]) { assert b[k..][i - k] in b[k..]; }
  }

  lemma NothingLeft(a: seq<Session>, b: seq<Session>, k: nat, c: Conn)
    requires k <= |a| && k <= |b| && Alike(a[..k], b[..k]) && Swept(a[k..], b[k..], c)
    requires forall x :: x in b ==> !Owns(c, x)
    ensures Swept(a, b, c) && OwnedReversed(a, c) == OwnedReversed(a[k..], c)
  {
    forall i | 0 <= i < k ensures !Owns(c, a[i]) {
      assert Disturbed(a[..k][i], b[..k][i]);
      assert b[i] in b;
    }
    SweptSkip(a, b, k, c);
  }

  /** The sweep from k on, then one close at j: the sweep from j on. */
  lemma SweepGoesOn(a: seq<Session>, b: seq<Session>, d: seq<Session>, j: nat, k: nat, c: Conn, gone: bool)
    requires j < k <= |a| && k <= |b| && LastAt(b, j, c)
    requires Alike(a[..k], b[..k]) && Swept(a[k..], b[k..], c)
    requires ClosedAt(b, d, j, c, b[j].sessionId, gone) && (b[j].gp || gone)
    ensures j <= |d| && Alike(a[..j], d[..j]) && Swept(a[j..], d[j..], c)
    ensures OwnedReversed(a[j..], c) == OwnedReversed(a[k..], c) + [b[j].sessionId]
  {
    TailSwept(a, b, j, k, c);
    assert Disturbed(a[..k][j], b[..k][j]);
    assert a[j..][0] == a[j] && a[j..][1..] == a[j + 1..];
    HeadKept(a, b, d, j, k, gone);
    if gone {
      SweptAlike(a[j + 1..], b[j + 1..], d[j..], c);
    } else {
      assert d[j..][0] == d[j] && d[j..][1..] == d[j + 1..];
      SweptAlike(a[j + 1..], b[j + 1..], d[j + 1..], c);
    }
  }

  /** The close at j was refused: the sweep is still at j. */
  lemma SweepWaits(a: seq<Session>, b: seq<Session>, d: seq<Session>, j: nat, k: nat, c: Conn)
    requires j < k <= |a| && k <= |b| && LastAt(b, j, c)
    requires Alike(a[..k], b[..k]) && Swept(a[k..], b[k..], c)
    requires ClosedAt(b, d, j, c, b[j].sessionId, false) && !b[j].gp
    ensures j < |d| && Alike(a[..j + 1], d[..j + 1]) && Swept(a[j + 1..], d[j + 1..], c)
    ensures OwnedReversed(a[j + 1..], c) == OwnedReversed(a[k..], c)
  {
    TailSwept(a, b, j, k, c);
    HeadKept(a, b, d, j, k, false);
    SweptAlike(a[j + 1..], b[j + 1..], d[j + 1..], c);
    var x, y := a[..j + 1], d[..j + 1];
    forall i | 0 <= i < |x| ensures Disturbed(x[i], y[i]) {
      assert Disturbed(a[..k][i], b[..k][i]) && Disturbed(b[i], d[i]);
    }
  }

  lemma TailSwept(a: seq<Session>, b: seq<Session>, j: nat, k: nat, c: Conn)
    requires j < k <= |a| && k <= |b| && LastAt(b, j, c)
    requires Alike(a[..k], b[..k]) && Swept(a[k..], b[k..], c)
    ensures Swept(a[j + 1..], b[j + 1..], c)
    ensures OwnedReversed(a[j + 1..], c) == OwnedReversed(a[k..], c)
  {
    var x, y, n := a[j + 1..], b[j + 1..], k - j - 1;
    forall i | 0 <= i < n ensures Disturbed(x[i], y[i]) && !Owns(c, x[i]) {
      assert Disturbed(a[..k][j + 1 + i], b[..k][j + 1 + i]);
    }
    assert x[n..] == a[k..] && y[n..] == b[k..];
    SweptSkip(x, y, n, c);
  }

  lemma HeadKept(a: seq<Session>, b: seq<Session>, d: seq<Session>, j: nat, k: nat, gone: bool)
    requires j < k <= |a| && k <= |b| && Alike(a[..k], b[..k])
    requires if gone then Alike(Without(b, j), d) else InPlace(b, d, j)
    ensures j <= |d| && Alike(a[..j], d[..j])
    ensures if gone then Alike(b[j + 1..], d[j..]) else j < |d| && Alike(b[j + 1..], d[j + 1..])
  {
    forall i | 0 <= i < j ensures Disturbed(a[i], d[i]) {
      assert Disturbed(a[..k][i], b[..k][i]);
      assert gone ==> Disturbed(Without(b, j)[i], d[i]);
      assert !gone ==> Disturbed(b[i], d[i]);
    }
    if gone {
      forall i | 0 <= i < |b| - j - 1 ensures Disturbed(b[j + 1..][i], d[j..][i]) {
        assert Disturbed(Without(b, j)[j + i], d[j + i]);
      }
    } else {
      var y, z := b[j + 1..], d[j + 1..];
      forall i | 0 <= i < |y| ensures Disturbed(y[i], z[i]) {
        assert Disturbed(b[j + 1 + i], d[j + 1 + i]);
      }
    }
  }

  /** After one pass the search finds the same session exactly when a legacy close was refused. */
  lemma PassRepeatsExactlyWhen(a: seq<Session>, b: seq<Session>, i: nat, c: Conn, gone: bool)
    requires LastAt(a, i, c) && ClosedAt(a, b, i, c, a[i].sessionId, gone)
    ensures LastAt(b, i, c) <==> !gone && !a[i].gp
  {
    if gone {
      assert i < |b| ==> Disturbed(Without(a, i)[i], b[i]);
    } else {
      forall k | i < k < |b| ensures !Owns(c, b[k]) { assert Disturbed(a[k], b[k]); }
    }
  }

  /**
   * The device close, from the end of the list: down to k the connection's sessions are gone or
   * orphaned; down to m, which is k or a legacy session the secure world has refused to close, they
   * were asked for, in that order.
   */
  ghost predicate SweptDownTo(was: seq<Session>, now: seq<Session>, asked: seq<Sid>, k: nat, m: nat, c: Conn) {
    && m <= k <= |was| && k <= |now|
    && Alike(was[..k], now[..k]) && Swept(was[k..], now[k..], c)
    && (m == k || (m == k - 1 && Owns(c, now[m])))
    && Firsts(asked) == OwnedReversed(was[m..], c)
  }

  lemma NothingSwept(was: seq<Session>, c: Conn)
    ensures SweptDownTo(was, was, [], |was|, |was|, c)
  {
    assert was[|was|..] == [] && was[..|was|] == was;
  }

  lemma Associated(a: seq<Sid>, b: seq<Sid>, d: seq<Sid>)
    ensures a + b + d == a + (b + d)
  {}

  lemma LastAtOnce(now: seq<Session>, i: nat, j: nat, c: Conn)
    requires LastAt(now, i, c) && LastAt(now, j, c)
    ensures i == j
  {}

  lemma AllSwept(was: seq<Session>, now: seq<Session>, asked: seq<Sid>, k: nat, m: nat, c: Conn)
    requires SweptDownTo(was, now, asked, k, m, c) && forall x :: x in now ==> !Owns(c, x)
    ensures Swept(was, now, c) && Firsts(asked) == OwnedReversed(was, c)
  {
    NothingLeft(was, now, k, c);
  }

  lemma NextToClose(was: seq<Session>, now: seq<Session>, asked: seq<Sid>, k: nat, m: nat, j: nat, c: Conn)
    requires SweptDownTo(was, now, asked, k, m, c) && LastAt(now, j, c)
    ensures j < k && (m == j || m == k) && was[j] in was && Disturbed(was[j], now[j])
  {
    LastIsBefore(was, now, j, k, c);
    assert Disturbed(was[..k][j], now[..k][j]);
  }

  /** One pass of the loop: the sweep comes down to j, or stays there with j asked for. */
  lemma SweptFurther(was: seq<Session>, now: seq<Session>, next: seq<Session>, asked: seq<Sid>, more: seq<Sid>,
                     k: nat, m: nat, j: nat, i: nat, c: Conn, gone: bool)
    requires DistinctIds(was) && SweptDownTo(was, now, asked, k, m, c) && LastAt(now, j, c)
    requires DistinctIds(now) && ClosedAt(now, next, i, c, now[j].sessionId, gone)
    requires more == [now[j].sessionId] || more == [now[j].sessionId, now[j].sessionId]
    ensures i == j && SweptDownTo(was, next, asked + more, if gone || now[j].gp then j else j + 1, j, c)
    ensures !gone && !now[j].gp ==> LastAt(next, j, c) && next[j].sessionId == now[j].sessionId
  {
    NextToClose(was, now, asked, k, m, j, c);
    TailSwept(was, now, j, k, c);
    NextAsked(was, asked, more, j, m, k, c);
    PassRepeatsExactlyWhen(now, next, j, c, gone);
    if gone || now[j].gp { SweepGoesOn(was, now, next, j, k, c, gone); } else { SweepWaits(was, now, next, j, k, c); }
  }

  lemma OneUnlocked(locks: multiset<Handle>, all: set<Handle>, left: set<Handle>, h: Handle)
    requires h in left && left <= all
    ensures locks - multiset(all - left) - multiset{h} == locks - multiset(all - (left - {h}))
  {
    assert all - (left - {h}) == (all - left) + {h};
  }

  // ---------------------------------------------------------------- an exit while a close is under way

  /** The secure world announces the exit of the session. */
  predicate Announces(ns: seq<Notification>, sid: Sid) {
    exists k :: 0 <= k < |ns| && ns[k].sessionId == sid && ns[k].payload != 0
  }

  lemma {:induction false} ThereAlready(a: seq<Session>, n: Notification, i: nat)
    requires DistinctIds(a) && i < |a|
    ensures Handled(a, n)[i] == if a[i].sessionId == n.sessionId then E.Delivered(a[i], n) else a[i]
  {
    if i > 0 {
      assert a[0].sessionId != a[i].sessionId;
      if a[0].sessionId != n.sessionId { ThereAlready(a[1..], n, i - 1); }
    }
  }

  lemma AlikeIds(a: seq<Session>, b: seq<Session>)
    requires Alike(a, b) && DistinctIds(a)
    ensures DistinctIds(b)
  {
    forall k | 0 <= k < |a| ensures b[k].sessionId == a[k].sessionId { assert Disturbed(a[k], b[k]); }
  }

  lemma AnnouncesSnoc(ns: seq<Notification>, n: Notification, sid: Sid)
    ensures Announces(ns + [n], sid) <==> Announces(ns, sid) || (n.sessionId == sid && n.payload != 0)
  {
    assert (ns + [n])[|ns|] == n;
    if Announces(ns, sid) {
      var k :| 0 <= k < |ns| && ns[k].sessionId == sid && ns[k].payload != 0;
      assert (ns + [n])[k] == ns[k];
    }
    if Announces(ns + [n], sid) && !(n.sessionId == sid && n.payload != 0) {
      var k :| 0 <= k < |ns + [n]| && (ns + [n])[k].sessionId == sid && (ns + [n])[k].payload != 0;
      assert ns[k] == (ns + [n])[k];
    }
  }

  /** One more notification for a list the IRQ thread has changed already. */
  lemma DeadAfterOne(a: seq<Session>, b: seq<Session>, n: Notification, i: nat)
    requires DistinctIds(a) && Alike(a, b) && i < |a| && a[i].gp && a[i].nq.None?
    requires b[i].state == TaDead || b[i].state == CloseSend
    ensures var exit := n.sessionId == a[i].sessionId && n.payload != 0;
      Handled(b, n)[i].state == if exit then TaDead else b[i].state
  {
    AlikeIds(a, b);
    assert Disturbed(a[i], b[i]);
    ThereAlready(b, n, i);
  }

  /** A disconnected GP session is dead once an exit of it was announced, and only then. */
  lemma {:induction false} DeadExactlyWhen(a: seq<Session>, ns: seq<Notification>, i: nat)
    requires DistinctIds(a) && i < |a| && a[i].gp && a[i].nq.None? && a[i].state == CloseSend
    ensures HandledAll(a, ns)[i].state == if Announces(ns, a[i].sessionId) then TaDead else CloseSend
  {
    if ns != [] {
      var front, last := ns[..|ns| - 1], ns[|ns| - 1];
      DeadExactlyWhen(a, front, i);
      DeadAfterOne(a, HandledAll(a, front), last, i);
      assert ns == front + [last];
      AnnouncesSnoc(front, last, a[i].sessionId);
    }
  }

  // ---------------------------------------------------------------- in place

  class MobiCoreDevice {
    var trustletSessions: seq<Session>
    var locks: multiset<Handle>
    var replies: seq<Reply>       // what the secure world will answer, for GP sessions, and send before
    const refuses: set<Sid>       // legacy sessions it never closes
    var patience: map<Sid, nat>   // how often it refuses before it closes one of the other legacy sessions
    var tokens: nat               // TA-exit wake-ups
    var registered: set<Conn>     // connections whose connectionData is set
    ghost var sent: seq<Sid>      // the close commands, in that order

    constructor (list: seq<Session>, kernel: multiset<Handle>, world: seq<Reply>, never: set<Sid>, later: map<Sid, nat>)
      requires DistinctIds(list)
      ensures trustletSessions == list && locks == kernel && replies == world && refuses == never && patience == later
      ensures registered == {} && sent == [] && tokens == 0
    {
      trustletSessions, locks, replies, refuses, patience := list, kernel, world, never, later;
      registered, tokens, sent := {}, 0, [];
    }

    function PatienceFor(sid: Sid): nat
      reads this
    {
      if sid in patience then patience[sid] else 0
    }

    predicate WillRefuse(sid: Sid)
      reads this
    {
      sid in refuses || PatienceFor(sid) > 0
    }

    function AnswerFor(x: Session): Answer
      reads this
    {
      if x.gp then Next(replies).answer else if WillRefuse(x.sessionId) then Refused else Ok
    }

    function PatienceAfter(x: Session): map<Sid, nat>
      reads this
    {
      if !x.gp && x.sessionId !in refuses && WillRefuse(x.sessionId)
      then patience[x.sessionId := patience[x.sessionId] - 1]
      else patience
    }

    /** The IRQ thread handles one notification while somebody waits for the MCP answer. */
    method HandleNotification(n: Notification)
      modifies this`trustletSessions, this`tokens
      ensures trustletSessions == Handled(old(trustletSessions), n)
      ensures tokens == old(tokens) + WakeUps(old(trustletSessions), n)
    {
      var i := 0;
      while i < |trustletSessions| && trustletSessions[i].sessionId != n.sessionId
        invariant i <= |trustletSessions| && trustletSessions == old(trustletSessions)
        invariant forall j :: 0 <= j < i ==> trustletSessions[j].sessionId != n.sessionId
      {
        i := i + 1;
      }
      HandledIsFirst(trustletSessions, n, i);
      if i < |trustletSessions| {
        var x := trustletSessions[i];
        trustletSessions := trustletSessions[i := E.Delivered(x, n)];
        if x.nq.None? && x.owner.None? { tokens := tokens + 1; }
      }
    }

    /** What the IRQ thread does until the answer comes. */
    method AwaitAnswer(meanwhile: seq<Notification>)
      modifies this`trustletSessions, this`tokens
      ensures trustletSessions == HandledAll(old(trustletSessions), meanwhile)
      ensures tokens == old(tokens) + WakeUpsAll(old(trustletSessions), meanwhile)
    {
      var k := 0;
      while k < |meanwhile|
        invariant k <= |meanwhile|
        invariant trustletSessions == HandledAll(old(trustletSessions), meanwhile[..k])
        invariant tokens == old(tokens) + WakeUpsAll(old(trustletSessions), meanwhile[..k])
      {
        assert meanwhile[..k + 1][..k] == meanwhile[..k];
        HandleNotification(meanwhile[k]);
        k := k + 1;
      }
      assert meanwhile[..k] == meanwhile;
    }

    /** closeSessionInternal: the close command, and what arrives until it is answered. */
    method CloseSessionInternal(i: nat) returns (answer: Answer)
      requires i < |trustletSessions|
      modifies this`trustletSessions, this`tokens, this`replies, this`patience, this`sent
      ensures sent == old(sent) + [old(trustletSessions)[i].sessionId]
      ensures answer == old(AnswerFor(trustletSessions[i]))
      ensures trustletSessions == HandledAll(old(trustletSessions), old(Next(replies)).meanwhile)
      ensures tokens == old(tokens) + WakeUpsAll(old(trustletSessions), old(Next(replies)).meanwhile)
      ensures replies == Rest(old(replies))
      ensures patience == old(PatienceAfter(trustletSessions[i]))
    {
      var x, reply := trustletSessions[i], Next(replies);
      sent := sent + [x.sessionId];
      answer := AnswerFor(x);
      patience := PatienceAfter(x);
      replies := Rest(replies);
      AwaitAnswer(reply.meanwhile);
    }

    /** The first listed session with the id, if the connection owns it. */
    method FindSession(c: Conn, sid: Sid) returns (r: Option<nat>)
      requires DistinctIds(trustletSessions)
      ensures r.Some? ==> (r.value < |trustletSessions| && Owns(c, trustletSessions[r.value])
                           && trustletSessions[r.value].sessionId == sid)
      ensures r.None? ==> forall x :: x in trustletSessions && x.sessionId == sid ==> !Owns(c, x)
    {
      var i := 0;
      while i < |trustletSessions|
        invariant i <= |trustletSessions|
        invariant forall j :: 0 <= j < i ==> trustletSessions[j].sessionId != sid
      {
        if trustletSessions[i].sessionId == sid {
          return if trustletSessions[i].owner == Some(c) then Some(i) else None;
        }
        i := i + 1;
      }
      return None;
    }

    /** Every record's lock is given back, and the object leaves the list. */
    method FreeSession(i: nat)
      requires i < |trustletSessions|
      modifies this`trustletSessions, this`locks
      ensures trustletSessions == Without(old(trustletSessions), i)
      ensures locks == old(locks) - multiset(old(trustletSessions)[i].buffers.Keys)
    {
      var buffers := trustletSessions[i].buffers;
      ghost var all := buffers;
      while buffers.Keys != {}
        invariant trustletSessions == old(trustletSessions)
        invariant forall h :: h in buffers ==> h in all
        invariant locks == old(locks) - multiset(all.Keys - buffers.Keys)
        decreases |buffers.Keys|
      {
        var h :| h in buffers.Keys;
        assert (buffers - {h}).Keys == buffers.Keys - {h};
        OneUnlocked(old(locks), all.Keys, buffers.Keys, h);
        buffers := buffers - {h};
        locks := locks - multiset{h};
      }
      trustletSessions := trustletSessions[..i] + trustletSessions[i + 1..];
    }

    /**
     * The disconnection, and the close command; for a GP session whose close failed, None if it has
     * not exited, and a second command if it has.
     */
    method AskToClose(i: nat) returns (answer: Option<Answer>)
      requires DistinctIds(trustletSessions) && i < |trustletSessions|
      modifies this`trustletSessions, this`tokens, this`replies, this`patience, this`sent
      ensures InPlace(old(trustletSessions), trustletSessions, i)
      ensures patience == old(PatienceAfter(trustletSessions[i]))
      ensures var x, first, second := old(trustletSessions)[i], Next(old(replies)), Next(Rest(old(replies)));
        var disconnected := old(trustletSessions)[i := E.Disconnected(x)];
        if x.gp && first.answer == TaskFailed && Announces(first.meanwhile, x.sessionId) then
          answer == Some(second.answer) && sent == old(sent) + [x.sessionId, x.sessionId]
          && replies == Rest(Rest(old(replies)))
          && trustletSessions == HandledAll(HandledAll(disconnected, first.meanwhile), second.meanwhile)
        else
          sent == old(sent) + [x.sessionId] && replies == Rest(old(replies))
          && trustletSessions == HandledAll(disconnected, first.meanwhile)
          && answer == if !x.gp then Some(if old(WillRefuse(x.sessionId)) then Refused else Ok)
                       else if first.answer == TaskFailed then None else Some(first.answer)
    {
      ghost var was := trustletSessions;
      trustletSessions := trustletSessions[i := E.Disconnected(trustletSessions[i])];
      ghost var disconnected := trustletSessions;
      ghost var reply := Next(replies);
      var first := CloseSessionInternal(i);
      DisconnectedInPlace(was, disconnected, trustletSessions, i);
      if was[i].gp {
        DisconnectedIds(was, disconnected, i);
        DeadExactlyWhen(disconnected, reply.meanwhile, i);
      }
      if trustletSessions[i].gp && first == TaskFailed {
        if trustletSessions[i].state != TaDead { return None; }
        ghost var before := trustletSessions;
        var second := CloseSessionInternal(i);
        InPlaceAlike(was, before, trustletSessions, i);
        return Some(second);
      }
      answer := Some(first);
    }

    /** The session is gone, or orphaned with everything else in place; legacy ones stay owned. */
    method CloseSession(c: Conn, sid: Sid) returns (r: CloseResult, ghost i: nat)
      requires DistinctIds(trustletSessions)
      modifies this`trustletSessions, this`locks, this`tokens, this`replies, this`patience, this`sent
      ensures DistinctIds(trustletSessions)
      ensures r.UnknownSession? ==> trustletSessions == old(trustletSessions) && sent == old(sent)
      ensures r.UnknownSession? ==> forall x :: x in trustletSessions && x.sessionId == sid ==> !Owns(c, x)
      ensures !r.UnknownSession? ==> sent == old(sent) + [sid] || sent == old(sent) + [sid, sid]
      ensures !r.UnknownSession? ==> ClosedAt(old(trustletSessions), trustletSessions, i, c, sid, r == Closed)
      ensures r.UnknownSession? ==> locks == old(locks)
      // what became of it: for a legacy session the secure world's will...
      ensures !r.UnknownSession? && !old(trustletSessions)[i].gp ==>
        r == if old(WillRefuse(sid)) then Failed(Refused) else Closed
      // ...for a GP session the first answer, or the second if the first came after its exit
      ensures !r.UnknownSession? && old(trustletSessions)[i].gp ==>
        var first, second := Next(old(replies)), Next(Rest(old(replies)));
        && (first.answer == Ok ==> r == Closed)
        && (first.answer == TaskFailed && !Announces(first.meanwhile, sid) ==> r == Deferred)
        && (first.answer == TaskFailed && Announces(first.meanwhile, sid) ==>
              r == if second.answer == Ok then Closed else Failed(second.answer))
        && (first.answer != Ok && first.answer != TaskFailed ==> r == Failed(first.answer))
      // and its buffers are unlocked, once for each record, exactly if it is closed
      ensures !r.UnknownSession? ==>
        locks == if r == Closed then old(locks) - multiset(old(trustletSessions)[i].buffers.Keys) else old(locks)
      ensures !r.UnknownSession? ==> patience == old(PatienceAfter(trustletSessions[i]))
    {
      var found := FindSession(c, sid);
      if found.None? { return UnknownSession, 0; }
      i := found.value;
      ghost var was := trustletSessions;
      var answer := AskToClose(found.value);
      InPlaceIds(was, trustletSessions, i);
      if answer.None? { return Deferred, i; }
      if answer.value != Ok { return Failed(answer.value), i; }
      WithoutInPlace(was, trustletSessions, i);
      FreeSession(found.value);
      r := Closed;
    }

    /** The last listed session of the connection. */
    method LastOwned(c: Conn) returns (r: Option<nat>)
      ensures r.None? ==> forall x :: x in trustletSessions ==> !Owns(c, x)
      ensures r.Some? ==>
        r.value < |trustletSessions| && Owns(c, trustletSessions[r.value])
        && forall k :: r.value < k < |trustletSessions| ==> !Owns(c, trustletSessions[k])
    {
      var i := |trustletSessions|;
      while i > 0
        invariant 0 <= i <= |trustletSessions|
        invariant forall k :: i <= k < |trustletSessions| ==> !Owns(c, trustletSessions[k])
      {
        i := i - 1;
        if trustletSessions[i].owner == Some(c) { return Some(i); }
      }
      return None;
    }

    /** One pass of the loop of close, for the session at j: the sweep comes down to j or waits there. */
    method ClosePass(c: Conn, j: nat, ghost was: seq<Session>, ghost asked: seq<Sid>, ghost k: nat, ghost m: nat,
                     ghost before: seq<Sid>)
        returns (ghost all: seq<Sid>, ghost done: bool)
      requires DistinctIds(was) && DistinctIds(trustletSessions) && LastAt(trustletSessions, j, c)
      requires SweptDownTo(was, trustletSessions, asked, k, m, c) && sent == before + asked
      requires !trustletSessions[j].gp ==> trustletSessions[j].sessionId !in refuses
      modifies this`trustletSessions, this`locks, this`tokens, this`replies, this`patience, this`sent
      ensures DistinctIds(trustletSessions) && sent == before + all
      ensures SweptDownTo(was, trustletSessions, all, if done then j else j + 1, j, c)
      ensures !done ==> LastAt(trustletSessions, j, c)
      ensures !done ==> PatienceFor(trustletSessions[j].sessionId) < old(PatienceFor(trustletSessions[j].sessionId))
    {
      ghost var now := trustletSessions;
      assert now[j] in now;
      var r, i := CloseSession(c, trustletSessions[j].sessionId);
      done := r == Closed || now[j].gp;
      ghost var more := sent[|old(sent)|..];
      all := asked + more;
      assert sent == before + all by { Associated(before, asked, more); }
      SweptFurther(was, now, trustletSessions, asked, more, k, m, j, i, c, r == Closed);
    }

    /**
     * Everything the connection owns is closed, latest first, and the loop ends, unless the secure
     * world never closes one of the connection's legacy sessions.
     */
    method Close(c: Conn)
      requires DistinctIds(trustletSessions)
      requires forall x :: x in trustletSessions && Owns(c, x) && !x.gp ==> x.sessionId !in refuses
      modifies this
      ensures DistinctIds(trustletSessions) && registered == old(registered) - {c}
      ensures Swept(old(trustletSessions), trustletSessions, c)
      ensures forall x :: x in trustletSessions ==> !Owns(c, x)
      ensures old(sent) <= sent && Firsts(sent[|old(sent)|..]) == OwnedReversed(old(trustletSessions), c)
    {
      ghost var was, asked: seq<Sid> := trustletSessions, [];
      ghost var k: nat, m: nat := |was|, |was|;
      NothingSwept(was, c);
      var found := LastOwned(c);
      while found.Some?
        invariant DistinctIds(trustletSessions) && registered == old(registered)
        invariant SweptDownTo(was, trustletSessions, asked, k, m, c) && sent == old(sent) + asked
        invariant found.None? ==> forall x :: x in trustletSessions ==> !Owns(c, x)
        invariant found.Some? ==> LastAt(trustletSessions, found.value, c)
        decreases k, if found.Some? then PatienceFor(trustletSessions[found.value].sessionId) else 0
      {
        var j := found.value;
        NextToClose(was, trustletSessions, asked, k, m, j, c);
        ghost var done;
        asked, done := ClosePass(c, j, was, asked, k, m, old(sent));
        k, m := if done then j else j + 1, j;
        found := LastOwned(c);
        if found.Some? && !done { LastAtOnce(trustletSessions, found.value, j, c); }
      }
      AllSwept(was, trustletSessions, asked, k, m, c);
      assert sent[|old(sent)|..] == asked;
      registered := registered - {c};
    }
  }
}
