/**
 * What the searches of the session list find, and what unlinking leaves.
 */
module EngineLookups {
  import opened Common
  import opened SessionSpec
  import opened Engine

  ghost predicate FirstWithId(list: seq<Ptr>, heap: map<Ptr, Session>, sid: Sid, i: nat) {
    && i < |list| && list[i] in heap && heap[list[i]].sessionId == sid
    && forall j :: 0 <= j < i ==> list[j] !in heap || heap[list[j]].sessionId != sid
  }

  /** getTrustletSession returns the first in the list. */
  lemma {:induction false} FindIsFirst(list: seq<Ptr>, heap: map<Ptr, Session>, sid: Sid)
    requires Find(list, heap, sid).Some?
    ensures exists i: nat :: FirstWithId(list, heap, sid, i) && list[i] == Find(list, heap, sid).value
  {
    if list[0] in heap && heap[list[0]].sessionId == sid {
      assert FirstWithId(list, heap, sid, 0);
    } else {
      FindIsFirst(list[1..], heap, sid);
      var i: nat :| FirstWithId(list[1..], heap, sid, i) && list[1..][i] == Find(list, heap, sid).value;
      assert forall j :: 0 <= j < i + 1 ==> list[j] == if j == 0 then list[0] else list[1..][j - 1];
      assert list[i + 1] == list[1..][i];
      assert FirstWithId(list, heap, sid, i + 1);
    }
  }

  ghost predicate LastOf(list: seq<Ptr>, heap: map<Ptr, Session>, c: Conn, i: nat) {
    && i < |list| && list[i] in heap && heap[list[i]].owner == Some(c)
    && forall j :: i < j < |list| ==> list[j] !in heap || heap[list[j]].owner != Some(c)
  }

  /** Nothing behind the session the reverse search finds belongs to the connection. */
  lemma {:induction false} LastOwnedIsLast(list: seq<Ptr>, heap: map<Ptr, Session>, c: Conn)
    requires LastOwned(list, heap, c).Some?
    ensures exists i: nat :: LastOf(list, heap, c, i) && list[i] == LastOwned(list, heap, c).value
  {
    var n := |list| - 1;
    if list[n] in heap && heap[list[n]].owner == Some(c) {
      assert LastOf(list, heap, c, n);
    } else {
      LastOwnedIsLast(list[..n], heap, c);
      var i: nat :| LastOf(list[..n], heap, c, i) && list[..n][i] == LastOwned(list, heap, c).value;
      assert LastOf(list, heap, c, i);
    }
  }

  ghost predicate FirstDeadAt(list: seq<Ptr>, heap: map<Ptr, Session>, i: nat) {
    && i < |list| && list[i] in heap && heap[list[i]].state == TaDead
    && forall j :: 0 <= j < i ==> list[j] !in heap || heap[list[j]].state != TaDead
  }

  /** Nothing before the session the TA-exit search finds is dead. */
  lemma {:induction false} FirstDeadIsFirst(list: seq<Ptr>, heap: map<Ptr, Session>)
    requires FirstDead(list, heap).Some?
    ensures exists i: nat :: FirstDeadAt(list, heap, i) && list[i] == FirstDead(list, heap).value
  {
    if list[0] in heap && heap[list[0]].state == TaDead {
      assert FirstDeadAt(list, heap, 0);
    } else {
      FirstDeadIsFirst(list[1..], heap);
      var i: nat :| FirstDeadAt(list[1..], heap, i) && list[1..][i] == FirstDead(list, heap).value;
      assert forall j :: 0 <= j < i + 1 ==> list[j] == if j == 0 then list[0] else list[1..][j - 1];
      assert list[i + 1] == list[1..][i];
      assert FirstDeadAt(list, heap, i + 1);
    }
  }

  /** While ids are distinct, nothing is found only if the connection owns no session of the id. */
  lemma FindSessionFindsAll(s: State, c: Conn, sid: Sid)
    requires forall p, q :: p in s.heap && q in s.heap && p < q ==> s.heap[p].sessionId != s.heap[q].sessionId
    ensures FindSession(s, c, sid).None? <==>
      forall p :: p in s.list && p in s.heap && s.heap[p].sessionId == sid ==> s.heap[p].owner != Some(c)
  {
    if FindSession(s, c, sid).None? && Find(s.list, s.heap, sid).Some? {
      var q := Find(s.list, s.heap, sid).value;
      forall p | p in s.list && p in s.heap && s.heap[p].sessionId == sid ensures p == q {}
    }
  }

  ghost predicate NoDup(list: seq<Ptr>) {
    forall i, j :: 0 <= i < j < |list| ==> list[i] != list[j]
  }

  /** Unlinking makes no duplicates. */
  lemma {:induction false} RemoveNoDup(list: seq<Ptr>, p: Ptr)
    requires NoDup(list)
    ensures NoDup(Remove(list, p))
  {
    if list != [] {
      var rest := Remove(list[1..], p);
      RemoveNoDup(list[1..], p);
      forall i, j | 0 <= i < j < |Remove(list, p)|
        ensures Remove(list, p)[i] != Remove(list, p)[j]
      {
        if list[0] != p && i == 0 { assert rest[j - 1] in list[1..]; }
      }
    }
  }

  /** Unlinking takes the one element out and leaves the order of the others. */
  lemma {:induction false} RemoveKeepsOrder(list: seq<Ptr>, i: nat)
    requires NoDup(list) && i < |list|
    ensures Remove(list, list[i]) == list[..i] + list[i + 1..]
  {
    if i == 0 {
      RemoveNothing(list[1..], list[0]);
    } else {
      assert list[1..][i - 1] == list[i];
      RemoveKeepsOrder(list[1..], i - 1);
    }
  }

  lemma {:induction false} RemoveNothing(list: seq<Ptr>, p: Ptr)
    requires p !in list
    ensures Remove(list, p) == list
  {
    if list != [] { RemoveNothing(list[1..], p); }
  }
}
