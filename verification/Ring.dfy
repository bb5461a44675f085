/**
 * The notification queues shared with the secure world: rings on two free-running 32-bit counters.
 * The ring as a value with the code's arithmetic, the proof that it is a bounded FIFO for any
 * power-of-two size and from any counter values, and the class whose methods do it in place.
 */
module NotificationRing {
  import opened Bits
  import opened Common
  import opened SessionSpec

  const TWO_32: nat := 0x1_0000_0000

  type Count = n: nat | n < TWO_32

  // ---------------------------------------------------------------- 32-bit arithmetic

  function Minus(a: Count, b: Count): Count { (a - b) % TWO_32 }

  function Next(a: Count): Count { (a + 1) % TWO_32 }

  /** The remainder: where a count stands in a ring of the given size. */
  function Pos(a: nat, size: nat): (r: nat)
    requires size > 0
    ensures r < size
  {
    if a < size then a else Pos(a - size, size)
  }

  lemma AndStep(a: nat, p: nat)
    requires p > 0
    ensures And(a, 2 * p - 1) == 2 * And(a / 2, p - 1) + a % 2
  {
    assert (2 * p - 1) / 2 == p - 1;
    assert (2 * p - 1) % 2 == 1;
  }

  lemma {:induction false} HalfPos(a: nat, p: nat)
    requires p > 0
    ensures Pos(a, 2 * p) == 2 * Pos(a / 2, p) + a % 2
  {
    if a >= 2 * p { HalfPos(a - 2 * p, p); }
  }

  /** Masking with a power of two less one is the remainder. */
  lemma {:induction false} MaskIsPos(a: nat, k: nat)
    ensures And(a, Pow2(k) - 1) == Pos(a, Pow2(k))
  {
    if k > 0 {
      AndStep(a, Pow2(k - 1));
      MaskIsPos(a / 2, k - 1);
      HalfPos(a, Pow2(k - 1));
    } else {
      PosOne(a);
    }
  }

  lemma {:induction false} PosOne(a: nat)
    ensures Pos(a, 1) == 0
  {
    if a > 0 { PosOne(a - 1); }
  }

  lemma {:induction false} PosTurns(a: nat, m: nat, size: nat)
    requires size > 0
    ensures Pos(a + m * size, size) == Pos(a, size)
  {
    if m > 0 {
      assert a + m * size == (a + (m - 1) * size) + size;
      PosTurns(a, m - 1, size);
    }
  }

  /** Within less than one turn of the ring, equal positions mean equal counts. */
  lemma {:induction false} PosDistinct(a: nat, b: nat, size: nat)
    requires a <= b < a + size
    ensures Pos(a, size) == Pos(b, size) <==> a == b
  {
    if a >= size { PosDistinct(a - size, b - size, size); }
  }

  lemma {:induction false} Pow2Sum(a: nat, b: nat)
    ensures Pow2(a + b) == Pow2(a) * Pow2(b)
  {
    if a > 0 { Pow2Sum(a - 1, b); }
  }

  lemma Pow2Of32()
    ensures Pow2(32) == TWO_32
  {
    Pow2Sum(16, 16);
    Pow2Sum(8, 8);
    assert Pow2(8) == 2 * Pow2(7) == 4 * Pow2(6) == 8 * Pow2(5) == 16 * Pow2(4);
    assert Pow2(4) == 2 * Pow2(3) == 4 * Pow2(2) == 8 * Pow2(1) == 16;
  }

  lemma Pow2Divides(k: nat)
    requires k <= 32
    ensures Pow2(32 - k) * Pow2(k) == TWO_32
  {
    Pow2Of32();
    Pow2Sum(32 - k, k);
  }

  /** The counters wrap at a multiple of the ring size, so wrapping does not move the position. */
  lemma WrapKeepsPos(a: nat, k: nat)
    requires k <= 32
    ensures Pos(a + TWO_32, Pow2(k)) == Pos(a, Pow2(k))
  {
    Pow2Divides(k);
    PosTurns(a, Pow2(32 - k), Pow2(k));
  }

  // ---------------------------------------------------------------- the ring as a value

  datatype Ring = Ring(slots: seq<Notification>, writeCnt: Count, readCnt: Count)

  /** The size is a power of two below 2^32, and the writer is at most one turn ahead. */
  ghost predicate WellFormed(ring: Ring) {
    && (exists k: nat :: k <= 31 && |ring.slots| == Pow2(k))
    && Minus(ring.writeCnt, ring.readCnt) <= |ring.slots|
  }

  function Slot(cnt: Count, size: nat): nat
    requires size > 0
  {
    And(cnt, size - 1)
  }

  lemma SlotIsPos(cnt: Count, size: nat)
    requires exists k: nat :: k <= 31 && size == Pow2(k)
    ensures size > 0 && Slot(cnt, size) == Pos(cnt, size)
  {
    var k: nat :| k <= 31 && size == Pow2(k);
    MaskIsPos(cnt, k);
  }

  /** putNotification. */
  function Put(ring: Ring, n: Notification): Ring
    requires WellFormed(ring)
  {
    var size := |ring.slots|;
    if Minus(ring.writeCnt, ring.readCnt) < size then
      SlotIsPos(ring.writeCnt, size);
      ring.(slots := ring.slots[Slot(ring.writeCnt, size) := n], writeCnt := Next(ring.writeCnt))
    else ring
  }

  /** getNotification: the ring afterwards, and which slot is returned. */
  function Get(ring: Ring): (Ring, Option<nat>)
    requires WellFormed(ring)
  {
    if Minus(ring.writeCnt, ring.readCnt) > 0 then
      (ring.(readCnt := Next(ring.readCnt)), Some(Slot(ring.readCnt, |ring.slots|)))
    else (ring, None)
  }

  /** The n slots from a position on, going round. */
  ghost function Window(slots: seq<Notification>, start: nat, n: nat): seq<Notification>
    requires |slots| > 0
  {
    seq(n, i requires 0 <= i => slots[Pos(start + i, |slots|)])
  }

  /** The notifications put and not yet taken, oldest first. */
  ghost function Pending(ring: Ring): seq<Notification>
    requires WellFormed(ring)
  {
    Window(ring.slots, ring.readCnt, Minus(ring.writeCnt, ring.readCnt))
  }

  lemma WindowGrows(slots: seq<Notification>, start: nat, n: nat, x: Notification)
    requires n < |slots|
    ensures Window(slots[Pos(start + n, |slots|) := x], start, n + 1) == Window(slots, start, n) + [x]
  {
    var after := slots[Pos(start + n, |slots|) := x];
    forall i | 0 <= i < n ensures Window(after, start, n + 1)[i] == Window(slots, start, n)[i] {
      PosDistinct(start + i, start + n, |slots|);
    }
  }

  lemma WindowShrinks(slots: seq<Notification>, cnt: Count, n: nat, k: nat)
    requires k <= 31 && |slots| == Pow2(k) && n > 0
    ensures [slots[Pos(cnt, |slots|)]] + Window(slots, Next(cnt), n - 1) == Window(slots, cnt, n)
  {
    forall i | 1 <= i < n ensures Window(slots, Next(cnt), n - 1)[i - 1] == Window(slots, cnt, n)[i] {
      SamePosition(cnt, i, k);
    }
  }

  /** The writer stands where the reader will after everything pending is taken. */
  lemma WriterPosition(ring: Ring)
    requires WellFormed(ring)
    ensures 0 < 2 * |ring.slots| <= TWO_32
    ensures Slot(ring.writeCnt, |ring.slots|)
         == Pos(ring.readCnt + Minus(ring.writeCnt, ring.readCnt), |ring.slots|)
  {
    var size := |ring.slots|;
    SlotIsPos(ring.writeCnt, size);
    var k: nat :| k <= 31 && size == Pow2(k);
    SizeBound(k);
    PosAhead(ring.writeCnt, ring.readCnt, k);
  }

  lemma PosAhead(w: Count, r: Count, k: nat)
    requires k <= 31
    ensures Pos(w, Pow2(k)) == Pos(r + Minus(w, r), Pow2(k))
  {
    assert r + Minus(w, r) == if w >= r then w else w + TWO_32;
    WrapKeepsPos(w, k);
  }

  lemma CountUp(w: Count, r: Count)
    ensures Minus(w, r) < TWO_32 - 1 ==> Minus(Next(w), r) == Minus(w, r) + 1
    ensures Minus(w, r) > 0 ==> Minus(w, Next(r)) == Minus(w, r) - 1
  {}

  /** A put appends to what is pending, or does nothing at all when the ring is full. */
  lemma PutAppends(ring: Ring, n: Notification)
    requires WellFormed(ring)
    ensures WellFormed(Put(ring, n)) && |Put(ring, n).slots| == |ring.slots| && |Pending(ring)| <= |ring.slots|
    ensures |Pending(ring)| < |ring.slots| ==> Pending(Put(ring, n)) == Pending(ring) + [n]
    ensures |Pending(ring)| == |ring.slots| ==> Put(ring, n) == ring
  {
    var size, used := |ring.slots|, Minus(ring.writeCnt, ring.readCnt);
    if used < size {
      var after := Put(ring, n);
      WriterPosition(ring);
      CountUp(ring.writeCnt, ring.readCnt);
      assert |after.slots| == size;
      assert WellFormed(after);
      WindowGrows(ring.slots, ring.readCnt, used, n);
    }
  }

  lemma {:induction false} Pow2Grows(a: nat, b: nat)
    requires a <= b
    ensures Pow2(a) <= Pow2(b)
  {
    if a < b { Pow2Grows(a, b - 1); }
  }

  lemma SizeBound(k: nat)
    requires k <= 31
    ensures 2 * Pow2(k) <= TWO_32
  {
    Pow2Of32();
    Pow2Grows(k + 1, 32);
  }

  /** A get yields the oldest pending notification and removes it, and only it. */
  lemma GetTakesOldest(ring: Ring)
    requires WellFormed(ring)
    ensures WellFormed(Get(ring).0) && Get(ring).0.slots == ring.slots
    ensures Get(ring).1.None? <==> Pending(ring) == []
    ensures Pending(ring) == [] ==> Get(ring).0 == ring
    ensures Pending(ring) != [] ==>
      var (after, slot) := Get(ring);
      slot.value < |ring.slots| && [ring.slots[slot.value]] + Pending(after) == Pending(ring)
  {
    var size, used := |ring.slots|, Minus(ring.writeCnt, ring.readCnt);
    if used > 0 {
      SlotIsPos(ring.readCnt, size);
      CountUp(ring.writeCnt, ring.readCnt);
      var k: nat :| k <= 31 && size == Pow2(k);
      var after := Get(ring).0;
      assert WellFormed(after);
      WindowShrinks(ring.slots, ring.readCnt, used, k);
    }
  }

  lemma SamePosition(cnt: Count, i: nat, k: nat)
    requires k <= 31 && i >= 1
    ensures Pos(Next(cnt) + (i - 1), Pow2(k)) == Pos(cnt + i, Pow2(k))
  {
    WrapKeepsPos(i - 1, k);
  }

  /**
   * The get returns a pointer into the ring.  The next put overwrites what it points to exactly
   * when that put makes the ring full again.
   */
  lemma ReturnedSlotReused(ring: Ring)
    requires WellFormed(ring) && Pending(ring) != []
    ensures var (after, slot) := Get(ring);
      WellFormed(after)
      && (Slot(after.writeCnt, |ring.slots|) == slot.value <==> |Pending(after)| == |ring.slots| - 1)
  {
    var size, used := |ring.slots|, Minus(ring.writeCnt, ring.readCnt);
    GetTakesOldest(ring);
    WriterPosition(ring);
    SlotIsPos(ring.readCnt, size);
    if used < size { PosDistinct(ring.readCnt, ring.readCnt + used, size); }
    else { PosTurns(ring.readCnt, 1, size); }
  }

  // ---------------------------------------------------------------- runs

  datatype RingOp = PutOp(n: Notification) | GetOp

  /** A run on the ring: the ring afterwards and what each get found in the slot it returned. */
  function RunRing(ring: Ring, ops: seq<RingOp>): (Ring, seq<Option<Notification>>)
    requires WellFormed(ring)
    decreases |ops|
  {
    if ops == [] then (ring, [])
    else
      match ops[0]
      case PutOp(n) => PutAppends(ring, n); RunRing(Put(ring, n), ops[1..])
      case GetOp =>
        GetTakesOldest(ring);
        var (after, slot) := Get(ring);
        var (end, rest) := RunRing(after, ops[1..]);
        (end, [if slot.Some? then Some(ring.slots[slot.value]) else None] + rest)
  }

  /** The same run on a first-in first-out queue of limited size. */
  function RunFifo(size: nat, q: seq<Notification>, ops: seq<RingOp>)
    : (seq<Notification>, seq<Option<Notification>>)
    decreases |ops|
  {
    if ops == [] then (q, [])
    else
      match ops[0]
      case PutOp(n) => RunFifo(size, if |q| < size then q + [n] else q, ops[1..])
      case GetOp =>
        var (end, rest) := RunFifo(size, if q == [] then q else q[1..], ops[1..]);
        (end, [if q == [] then None else Some(q[0])] + rest)
  }

  /** The ring, seen through what is pending, does what the queue does. */
  ghost predicate Refines(ring: Ring, ops: seq<RingOp>)
    requires WellFormed(ring)
  {
    var (end, outs) := RunRing(ring, ops);
    && WellFormed(end) && |end.slots| == |ring.slots|
    && RunFifo(|ring.slots|, Pending(ring), ops) == (Pending(end), outs)
  }

  /** For every size, all counter values and every run, wrap-around included. */
  lemma {:induction false} RingIsFifo(ring: Ring, ops: seq<RingOp>)
    requires WellFormed(ring)
    ensures Refines(ring, ops)
    decreases |ops|
  {
    if ops != [] {
      match ops[0]
      case PutOp(n) =>
        PutAppends(ring, n);
        RingIsFifo(Put(ring, n), ops[1..]);
        RefinesPut(ring, n, ops);
      case GetOp =>
        GetTakesOldest(ring);
        RingIsFifo(Get(ring).0, ops[1..]);
        RefinesGet(ring, ops);
    }
  }

  lemma RefinesPut(ring: Ring, n: Notification, ops: seq<RingOp>)
    requires WellFormed(ring) && ops != [] && ops[0] == PutOp(n)
    requires WellFormed(Put(ring, n)) && Refines(Put(ring, n), ops[1..])
    ensures Refines(ring, ops)
  {
    PutAppends(ring, n);
  }

  lemma RefinesGet(ring: Ring, ops: seq<RingOp>)
    requires WellFormed(ring) && ops != [] && ops[0] == GetOp
    requires WellFormed(Get(ring).0) && Refines(Get(ring).0, ops[1..])
    ensures Refines(ring, ops)
  {
    GetTakesOldest(ring);
    var q, rest := Pending(ring), Pending(Get(ring).0);
    assert q != [] ==> q[1..] == rest;
  }

  // ---------------------------------------------------------------- in place

  /** The daemon's end of the two rings: it writes one and reads the other. */
  class NotificationQueue {
    const incoming: array<Notification>
    const outgoing: array<Notification>
    var inWrite: Count
    var inRead: Count
    var outWrite: Count
    var outRead: Count

    ghost function In(): Ring
      reads this, incoming
    {
      Ring(incoming[..], inWrite, inRead)
    }

    ghost function Out(): Ring
      reads this, outgoing
    {
      Ring(outgoing[..], outWrite, outRead)
    }

    ghost predicate Valid()
      reads this, incoming, outgoing
    {
      incoming != outgoing && WellFormed(In()) && WellFormed(Out())
    }

    /** The counters are in the shared memory and are taken as they are found. */
    constructor (i: array<Notification>, iw: Count, ir: Count, o: array<Notification>, ow: Count, or: Count)
      requires i != o && WellFormed(Ring(i[..], iw, ir)) && WellFormed(Ring(o[..], ow, or))
      ensures Valid() && incoming == i && outgoing == o
      ensures In() == Ring(i[..], iw, ir) && Out() == Ring(o[..], ow, or)
    {
      incoming, outgoing := i, o;
      inWrite, inRead, outWrite, outRead := iw, ir, ow, or;
    }

    method PutNotification(n: Notification)
      requires Valid()
      modifies this`outWrite, outgoing
      ensures Valid() && In() == old(In()) && Out() == Put(old(Out()), n)
      ensures |old(Pending(Out()))| < outgoing.Length ==> Pending(Out()) == old(Pending(Out())) + [n]
      ensures |old(Pending(Out()))| == outgoing.Length ==> Out() == old(Out())
    {
      PutAppends(Out(), n);
      if Minus(outWrite, outRead) < outgoing.Length {
        SlotIsPos(outWrite, outgoing.Length);
        outgoing[Slot(outWrite, outgoing.Length)] := n;
        outWrite := Next(outWrite);
      }
    }

    /** The slot of the oldest notification, if there is one; its contents are not copied. */
    method GetNotification() returns (slot: Option<nat>)
      requires Valid()
      modifies this`inRead
      ensures Valid() && Out() == old(Out()) && (In(), slot) == Get(old(In()))
      ensures slot.None? <==> old(Pending(In())) == []
      ensures slot.Some? ==>
        slot.value < incoming.Length && [incoming[slot.value]] + Pending(In()) == old(Pending(In()))
    {
      GetTakesOldest(In());
      slot := None;
      if Minus(inWrite, inRead) > 0 {
        slot := Some(Slot(inRead, incoming.Length));
        inRead := Next(inRead);
      }
    }
  }
}
