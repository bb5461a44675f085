/**
 * An operation whose setup fails after an answered one: what had been mapped for it is unmapped
 * again, and so may be what the TCI still holds the map information of.
 */
module GpFailure {
  import opened Common
  import opened ClientMemory
  import opened GpOperation

  // ---------------------------------------------------------------- up to the parameter that fails

  /** The index of the first parameter from i on whose setup fails; 4 if none does. */
  function StopsAt(w: World, tci: Tci, op: Operation, xs: Inputs, i: nat): (k: nat)
    requires i <= 4
    ensures i <= k <= 4
    ensures k == 4 <==> SetupFrom(w, tci, op, xs, i).2 == Success
    decreases |op.params| - i
  {
    if i == 4 then 4
    else
      var (v, u, status) := SetupParam(w, tci, op, xs[i], i);
      if status == Success then StopsAt(v, u, op, xs, i + 1) else i
  }

  /** Client, daemon, kernel and TCI when it is that parameter's turn. */
  function Before(w: World, tci: Tci, op: Operation, xs: Inputs, i: nat): (World, Tci)
    requires i <= 4
    decreases |op.params| - i
  {
    if i == 4 then (w, tci)
    else
      var (v, u, status) := SetupParam(w, tci, op, xs[i], i);
      if status == Success then Before(v, u, op, xs, i + 1) else (w, tci)
  }

  /** The buffers mapped for the parameters from i to below k, and those whose unmap is refused. */
  function AddedTo(op: Operation, xs: Inputs, i: nat, k: nat): seq<Desc>
    requires i <= k <= 4
    decreases k - i
  {
    if i == k then [] else AddedBy(op, xs[i], i) + AddedTo(op, xs, i + 1, k)
  }

  function RefusedTo(op: Operation, xs: Inputs, accepts: Answers, i: nat, k: nat): seq<Desc>
    requires i <= k <= 4
    decreases k - i
  {
    if i == k then []
    else (if accepts[i] then [] else AddedBy(op, xs[i], i)) + RefusedTo(op, xs, accepts, i + 1, k)
  }

  lemma {:induction false} BeforeAdds(w: World, tci: Tci, op: Operation, xs: Inputs, i: nat)
    requires i <= 4 && Agree(w) && ReliableFrom(w, tci, op, xs, i)
    ensures var k, v := StopsAt(w, tci, op, xs, i), Before(w, tci, op, xs, i).0;
      v == ExtendedBy(w, AddedTo(op, xs, i, k)) && Agree(v)
    decreases |op.params| - i
  {
    if i < 4 {
      var (v, u, status) := SetupParam(w, tci, op, xs[i], i);
      if status == Success {
        SetupParamAdds(w, tci, op, xs[i], i);
        BeforeAdds(v, u, op, xs, i + 1);
        ExtendedTwice(w, AddedBy(op, xs[i], i), AddedTo(op, xs, i + 1, StopsAt(v, u, op, xs, i + 1)));
      }
    }
  }

  /** The map information below the parameter that fails is that of the setup... */
  lemma {:induction false} BeforeIntact(w: World, tci: Tci, op: Operation, xs: Inputs, i: nat)
    requires i <= 4 && Agree(w) && ReliableFrom(w, tci, op, xs, i)
    ensures var k, u := StopsAt(w, tci, op, xs, i), Before(w, tci, op, xs, i).1;
      forall j :: i <= j < k ==> Intact(u, op, xs[j], j)
    decreases |op.params| - i
  {
    if i < 4 {
      var (v, u, status) := SetupParam(w, tci, op, xs[i], i);
      if status == Success {
        SetupParamAdds(w, tci, op, xs[i], i);
        BeforeIntact(v, u, op, xs, i + 1);
        BeforeOld(v, u, op, xs, i + 1);
      }
    }
  }

  /** ...and the rest is the old one. */
  lemma {:induction false} BeforeOld(w: World, tci: Tci, op: Operation, xs: Inputs, i: nat)
    requires i <= 4
    ensures var k, u := StopsAt(w, tci, op, xs, i), Before(w, tci, op, xs, i).1;
      forall j :: 0 <= j < i || k <= j < 4 ==> u.params[j] == tci.params[j]
    decreases |op.params| - i
  {
    if i < 4 {
      var (v, u, status) := SetupParam(w, tci, op, xs[i], i);
      if status == Success { BeforeOld(v, u, op, xs, i + 1); }
    }
  }

  lemma {:induction false} StopsThere(w: World, tci: Tci, op: Operation, xs: Inputs, i: nat)
    requires i <= 4 && Agree(w) && ReliableFrom(w, tci, op, xs, i) && StopsAt(w, tci, op, xs, i) < 4
    ensures var k := StopsAt(w, tci, op, xs, i); var (v, u) := Before(w, tci, op, xs, i);
      && Reliable(v, xs[k]) && NotAnswered(u) == NotAnswered(tci)
      && SetupFrom(w, tci, op, xs, i) == SetupParam(v, u, op, xs[k], k)
    decreases |op.params| - i
  {
    var (v, u, status) := SetupParam(w, tci, op, xs[i], i);
    if status == Success {
      assert u.returnOrigin == tci.returnOrigin && u.returnStatus == tci.returnStatus;
      SetupParamAdds(w, tci, op, xs[i], i);
      StopsThere(v, u, op, xs, i + 1);
    }
  }

  lemma {:induction false} BeforeFresh(w: World, tci: Tci, op: Operation, xs: Inputs, i: nat)
    requires i <= 4 && Agree(w) && ReliableFrom(w, tci, op, xs, i)
    ensures forall d :: d in AddedTo(op, xs, i, StopsAt(w, tci, op, xs, i)) ==> d.handle !in w.kernel
    decreases |op.params| - i
  {
    if i < 4 {
      var (v, u, status) := SetupParam(w, tci, op, xs[i], i);
      if status == Success {
        SetupParamAdds(w, tci, op, xs[i], i);
        BeforeFresh(v, u, op, xs, i + 1);
        ExtendedKeeps(w, AddedBy(op, xs[i], i));
      }
    }
  }

  // ---------------------------------------------------------------- the parameter that fails

  /** What a map that fails at the daemon leaves with the daemon and the kernel. */
  function Left(w: World, h: Handle, len: nat, outcome: DaemonMap): World {
    World(w.descs, if outcome.RefusedByWorld? then w.records[h := len] else w.records,
          if outcome.NotLocked? then w.kernel else w.kernel[h := Wsm(false, 1)])
  }

  lemma FailedParam(w: World, tci: Tci, op: Operation, x: MapInput, k: nat)
    requires k < 4 && Agree(w) && Reliable(w, x) && SetupParam(w, tci, op, x, k).2 != Success
    ensures var (v, u, _) := SetupParam(w, tci, op, x, k);
      && (v == w || v == Left(w, x.handle, Size(op, k), x.daemon))
      && u.params == (if Rejected(op, k) then tci.params
                      else tci.params[k := tci.params[k].(info := tci.params[k].info.(sVirtualLen := 0))])
      && NotAnswered(u) == NotAnswered(tci)
  {
    if !Rejected(op, k) && Map(w, Buffer(op, k), Size(op, k), x).1 == DaemonUnreachable {
      FailedMapLeavesClient(w, Buffer(op, k), Size(op, k), x);
    }
  }

  lemma LeftAgrees(w: World, h: Handle, len: nat, outcome: DaemonMap)
    requires Agree(w) && h !in w.kernel
    ensures Agree(Left(w, h, len, outcome))
  {
    var t := Left(w, h, len, outcome);
    forall i | 0 <= i < |t.descs| ensures Backed(t, t.descs[i]) { assert Backed(w, w.descs[i]); }
  }

  /** It makes no difference whether that is left before or after other buffers were mapped. */
  lemma {:induction false} LeftCommutes(w: World, ds: seq<Desc>, h: Handle, len: nat, outcome: DaemonMap)
    requires forall d :: d in ds ==> d.handle != h
    ensures Left(ExtendedBy(w, ds), h, len, outcome) == ExtendedBy(Left(w, h, len, outcome), ds)
    decreases |ds|
  {
    if ds != [] {
      var a, b := Left(Extended(w, ds[0]), h, len, outcome), Extended(Left(w, h, len, outcome), ds[0]);
      assert a.records == b.records && a.kernel == b.kernel;
      LeftCommutes(Extended(w, ds[0]), ds[1..], h, len, outcome);
    }
  }

  // ---------------------------------------------------------------- unwinding

  /** Unwinding the parameters that were set up leaves the buffers whose unmap is refused. */
  lemma {:induction false} UnwindsTo(
      w: World, tci: Tci, op: Operation, xs: Inputs, accepts: Answers, i: nat, k: nat)
    requires i <= k <= 4 && Agree(w) && Agree(ExtendedBy(w, AddedTo(op, xs, i, k)))
    requires forall j :: i <= j < k ==> Intact(tci, op, xs[j], j)
    requires forall d :: d in AddedTo(op, xs, i, k) ==> d.handle !in w.kernel
    ensures UnwindFrom(ExtendedBy(w, AddedTo(op, xs, i, k)), tci, op, accepts, i)
         == UnwindFrom(ExtendedBy(w, RefusedTo(op, xs, accepts, i, k)), tci, op, accepts, k)
    ensures Agree(ExtendedBy(w, RefusedTo(op, xs, accepts, i, k)))
    decreases k - i
  {
    if i < k {
      var now, rest := if accepts[i] then [] else AddedBy(op, xs[i], i), AddedTo(op, xs, i + 1, k);
      assert Intact(tci, op, xs[i], i);
      if Mapping(op, i) {
        var d := Desc(Buffer(op, i), xs[i].daemon.sVirtualAddr, Size(op, i), xs[i].handle);
        assert AddedTo(op, xs, i, k) == [d] + rest && d in [d] + rest;
        OneOfSeveral(w, d, rest, accepts[i]);
      } else {
        assert AddedTo(op, xs, i, k) == rest && now == [];
      }
      UnwindsTo(ExtendedBy(w, now), tci, op, xs, accepts, i + 1, k);
      ExtendedTwice(w, now, RefusedTo(op, xs, accepts, i + 1, k));
    }
  }

  /** The TCI has map information of the parameter, from an earlier operation, and it will be used. */
  predicate Stale(tci: Tci, op: Operation, accepts: Answers, j: nat)
    requires j < 4
  {
    Buffer(op, j) != 0 && tci.params[j].info.sVirtualLen != 0 && tci.params[j].info.sVirtualAddr != 0 && accepts[j]
  }

  /** An earlier parameter, from k on, has used the same information. */
  predicate UsedBefore(tci: Tci, op: Operation, accepts: Answers, k: nat, j: nat, info: MapInfo)
    requires j <= 4
  {
    exists l :: k <= l < j && Stale(tci, op, accepts, l) && tci.params[l].info == info
  }

  /** It describes one of the buffers that are mapped, and the parameter's buffer is one of them. */
  predicate Hits(descs: seq<Desc>, tci: Tci, op: Operation, accepts: Answers, k: nat, j: nat)
    requires j < 4
  {
    && Stale(tci, op, accepts, j) && !UsedBefore(tci, op, accepts, k, j, tci.params[j].info)
    && (exists i :: 0 <= i < |descs| && Describes(descs[i], tci.params[j].info))
    && (exists i :: 0 <= i < |descs| && descs[i].virtAddr == Buffer(op, j))
  }

  /** The records of the mapped buffers that are still there when it is parameter j's turn. */
  ghost predicate RecordsLeft(w: World, t: World, tci: Tci, op: Operation, accepts: Answers, k: nat, j: nat)
    requires j <= 4
  {
    && t.descs == w.descs
    && forall i :: 0 <= i < |w.descs| && w.descs[i].sVirtualAddr != 0 ==>
         var d := w.descs[i];
         DaemonFinds(t, d.handle, d.len) <==>
           !UsedBefore(tci, op, accepts, k, j, MapInfo(d.sVirtualAddr, d.len))
  }

  lemma UnwindShrinks(w: World, tci: Tci, op: Operation, accepted: bool, j: nat)
    requires j < 4
    ensures |UnwindParam(w, tci, op, accepted, j).descs| <= |w.descs|
  {}

  lemma {:induction false} UnwindAllShrinks(w: World, tci: Tci, op: Operation, accepts: Answers, j: nat)
    requires j <= 4
    ensures |UnwindFrom(w, tci, op, accepts, j).descs| <= |w.descs|
    decreases |op.params| - j
  {
    if j < 4 {
      UnwindShrinks(w, tci, op, accepts[j], j);
      UnwindAllShrinks(UnwindParam(w, tci, op, accepts[j], j), tci, op, accepts, j + 1);
    }
  }

  lemma UsedUpTo(tci: Tci, op: Operation, accepts: Answers, k: nat, j: nat, info: MapInfo)
    requires k <= j < 4
    ensures UsedBefore(tci, op, accepts, k, j + 1, info) <==>
      UsedBefore(tci, op, accepts, k, j, info) || (Stale(tci, op, accepts, j) && tci.params[j].info == info)
  {
    if Stale(tci, op, accepts, j) && tci.params[j].info == info {
      assert k <= j < j + 1;
    }
  }

  /** One parameter with stale information takes a descriptor away exactly if it hits one. */
  lemma StaleStep(w: World, t: World, tci: Tci, op: Operation, accepts: Answers, k: nat, j: nat)
    requires k <= j < 4 && Agree(w) && RecordsLeft(w, t, tci, op, accepts, k, j)
    ensures var next := UnwindParam(t, tci, op, accepts[j], j);
      if Hits(w.descs, tci, op, accepts, k, j) then |next.descs| < |w.descs|
      else RecordsLeft(w, next, tci, op, accepts, k, j + 1)
  {
    var info, next := tci.params[j].info, UnwindParam(t, tci, op, accepts[j], j);
    var i := DescribedAt(t.descs, info);
    forall l | 0 <= l < |w.descs|
      ensures UsedBefore(tci, op, accepts, k, j + 1, MapInfo(w.descs[l].sVirtualAddr, w.descs[l].len)) <==>
        UsedBefore(tci, op, accepts, k, j, MapInfo(w.descs[l].sVirtualAddr, w.descs[l].len))
        || (Stale(tci, op, accepts, j) && info == MapInfo(w.descs[l].sVirtualAddr, w.descs[l].len))
    {
      UsedUpTo(tci, op, accepts, k, j, MapInfo(w.descs[l].sVirtualAddr, w.descs[l].len));
    }
    if Stale(tci, op, accepts, j) && i < |t.descs| {
      assert Backed(w, w.descs[i]);
      assert info == MapInfo(w.descs[i].sVirtualAddr, w.descs[i].len);
    }
  }

  /** Unwinding the parameters that were not set up leaves the mapped buffers exactly if none is hit. */
  lemma {:induction false} StaleUnwind(
      w: World, t: World, tci: Tci, op: Operation, accepts: Answers, k: nat, j: nat)
    requires k <= j <= 4 && Agree(w) && RecordsLeft(w, t, tci, op, accepts, k, j)
    ensures UnwindFrom(t, tci, op, accepts, j).descs == w.descs <==>
      forall l :: j <= l < 4 ==> !Hits(w.descs, tci, op, accepts, k, l)
    decreases 4 - j
  {
    if j < 4 {
      StaleStep(w, t, tci, op, accepts, k, j);
      var next := UnwindParam(t, tci, op, accepts[j], j);
      if Hits(w.descs, tci, op, accepts, k, j) {
        UnwindAllShrinks(next, tci, op, accepts, j + 1);
      } else {
        StaleUnwind(w, next, tci, op, accepts, k, j + 1);
      }
    }
  }

  // ---------------------------------------------------------------- the whole of it

  /** The first parameter whose old map information a failure at k leaves in the TCI. */
  function OldFrom(op: Operation, k: nat): nat
    requires k < 4
  {
    if Rejected(op, k) then k else k + 1
  }

  /** The first parameters are unwound, the failed one has left its traces, and the rest is stale. */
  lemma FailureUnwound(w: World, tci: Tci, op: Operation, xs: Inputs, accepts: Answers)
    requires Agree(w) && ReliableFrom(w, tci, op, xs, 0) && StopsAt(w, tci, op, xs, 0) < 4
    ensures var k := StopsAt(w, tci, op, xs, 0); var (v, u, _) := SetupFrom(w, tci, op, xs, 0);
      exists t: World ::
        && Agree(t) && t.descs == w.descs + RefusedTo(op, xs, accepts, 0, k)
        && UnwindFrom(v, u, op, accepts, 0) == UnwindFrom(t, u, op, accepts, k)
  {
    var k := StopsAt(w, tci, op, xs, 0);
    var (v0, u0) := Before(w, tci, op, xs, 0);
    var (v, u, _) := SetupFrom(w, tci, op, xs, 0);
    var ds := AddedTo(op, xs, 0, k);
    BeforeAdds(w, tci, op, xs, 0);
    BeforeIntact(w, tci, op, xs, 0);
    BeforeFresh(w, tci, op, xs, 0);
    StopsThere(w, tci, op, xs, 0);
    FailedParam(v0, u0, op, xs[k], k);
    ExtendedKeeps(w, ds);
    forall j | 0 <= j < k ensures Intact(u, op, xs[j], j) { assert Intact(u0, op, xs[j], j); }
    var base := w;
    if v != v0 {
      base := Left(w, xs[k].handle, Size(op, k), xs[k].daemon);
      LeftAgrees(w, xs[k].handle, Size(op, k), xs[k].daemon);
      LeftAgrees(v0, xs[k].handle, Size(op, k), xs[k].daemon);
      AddedAreKnown(w, ds);
      LeftCommutes(w, ds, xs[k].handle, Size(op, k), xs[k].daemon);
    }
    UnwindsTo(base, u, op, xs, accepts, 0, k);
    ExtendedDescs(base, RefusedTo(op, xs, accepts, 0, k));
  }

  lemma {:induction false} AddedAreKnown(w: World, ds: seq<Desc>)
    ensures forall d :: d in ds ==> d.handle in ExtendedBy(w, ds).kernel
    decreases |ds|
  {
    if ds != [] {
      AddedAreKnown(Extended(w, ds[0]), ds[1..]);
      ExtendedKeeps(Extended(w, ds[0]), ds[1..]);
    }
  }

  lemma SameHits(descs: seq<Desc>, tci: Tci, u: Tci, op: Operation, accepts: Answers, m: nat, j: nat)
    requires m <= j < 4 && forall l :: m <= l < 4 ==> u.params[l] == tci.params[l]
    ensures Hits(descs, u, op, accepts, m, j) == Hits(descs, tci, op, accepts, m, j)
  {
    forall l | m <= l < j ensures Stale(u, op, accepts, l) == Stale(tci, op, accepts, l) {}
  }

  /** The failed parameter's information is erased or old, that of the later ones is old. */
  predicate OldInfo(tci: Tci, u: Tci, op: Operation, k: nat)
    requires k < 4
  {
    && (forall l :: OldFrom(op, k) <= l < 4 ==> u.params[l] == tci.params[l])
    && (!Rejected(op, k) ==> u.params[k].info.sVirtualLen == 0)
  }

  lemma FailureKeepsOldInfo(w: World, tci: Tci, op: Operation, xs: Inputs)
    requires Agree(w) && ReliableFrom(w, tci, op, xs, 0) && StopsAt(w, tci, op, xs, 0) < 4
    ensures var u := SetupFrom(w, tci, op, xs, 0).1;
      OldInfo(tci, u, op, StopsAt(w, tci, op, xs, 0)) && NotAnswered(u) == NotAnswered(tci)
  {
    var k := StopsAt(w, tci, op, xs, 0);
    var (v0, u0) := Before(w, tci, op, xs, 0);
    BeforeAdds(w, tci, op, xs, 0);
    BeforeOld(w, tci, op, xs, 0);
    StopsThere(w, tci, op, xs, 0);
    FailedParam(v0, u0, op, xs[k], k);
  }

  /** What is left after the first parameters were unwound stays exactly if nothing old hits it. */
  lemma OldInfoUnwound(t: World, tci: Tci, u: Tci, op: Operation, accepts: Answers, k: nat)
    requires k < 4 && Agree(t) && OldInfo(tci, u, op, k)
    ensures UnwindFrom(t, u, op, accepts, k).descs == t.descs <==>
      forall j :: OldFrom(op, k) <= j < 4 ==> !Hits(t.descs, tci, op, accepts, OldFrom(op, k), j)
  {
    var m := OldFrom(op, k);
    assert UnwindFrom(t, u, op, accepts, k) == UnwindFrom(t, u, op, accepts, m);
    forall i | 0 <= i < |t.descs| && t.descs[i].sVirtualAddr != 0
      ensures DaemonFinds(t, t.descs[i].handle, t.descs[i].len)
    {
      assert Backed(t, t.descs[i]);
    }
    StaleUnwind(t, t, u, op, accepts, m, m);
    forall j | m <= j < 4 ensures Hits(t.descs, u, op, accepts, m, j) == Hits(t.descs, tci, op, accepts, m, j) {
      SameHits(t.descs, tci, u, op, accepts, m, j);
    }
  }

  /**
   * A setup that fails at the k-th parameter while the TCI holds the answer of a trusted application:
   * the client is left with the buffers it had and, of those mapped before the failure, the ones
   * whose unmap is refused, exactly if no old map information hits one of these buffers.
   */
  lemma FailureUndoneExactlyWhen(w: World, tci: Tci, op: Operation, xs: Inputs, cancelled: bool, accepts: Answers)
    requires Agree(w) && ReliableFrom(w, tci.(paramTypes := 0), op, xs, 0) && !NotAnswered(tci)
    requires Setup(w, tci, op, xs, false, accepts).2 != Success
    ensures var k := StopsAt(w, tci.(paramTypes := 0), op, xs, 0);
      var left := w.descs + RefusedTo(op, xs, accepts, 0, k);
      Setup(w, tci, op, xs, cancelled, accepts).0.descs == left <==>
        forall j :: OldFrom(op, k) <= j < 4 ==> !Hits(left, tci, op, accepts, OldFrom(op, k), j)
  {
    var start := tci.(paramTypes := 0);
    var k := StopsAt(w, start, op, xs, 0);
    var (v, u, _) := SetupFrom(w, start, op, xs, 0);
    FailureKeepsOldInfo(w, start, op, xs);
    FailureUnwound(w, start, op, xs, accepts);
    var t: World :| Agree(t) && t.descs == w.descs + RefusedTo(op, xs, accepts, 0, k)
                    && UnwindFrom(v, u, op, accepts, 0) == UnwindFrom(t, u, op, accepts, k);
    OldInfoUnwound(t, tci, u, op, accepts, k);
  }

  // ---------------------------------------------------------------- one that hits

  /** Its first parameter is the part of a shared memory from 4096 on, and beyond its end. */
  const BEYOND := Operation(TEEC_MEMREF_PARTIAL_INPUT, ONE_BUFFER.params[0 := Parameter(
    0, 0, 0, 0, SharedMemory(4096, 16, TEEC_MEM_INPUT), 0, 32)])

  const ANSWERED := ZEROED.(params := ZEROED.params[0 := NO_INFO.(info := MapInfo(8192, 16))],
                            returnOrigin := TEEC_ORIGIN_TRUSTED_APP)

  /** The buffer an answered operation left mapped is unmapped by a later one that is rejected. */
  lemma RejectedUnmaps()
    ensures var all: Answers := [true, true, true, true]; var w := Extended(EMPTY, MAPPED_BUFFER);
      var (v, _, status) := Setup(w, ANSWERED, BEYOND, MAPPED_AT, false, all);
      Agree(w) && status == BadParameters && w.descs == [MAPPED_BUFFER] && v.descs == []
  {
    var all: Answers := [true, true, true, true];
    var w := Extended(EMPTY, MAPPED_BUFFER);
    assert Rejected(BEYOND, 0);
    MatchingUnmap(w, 0);
    var t := Forgotten(w, 0);
    assert t.descs == [];
    UnwindAllShrinks(t, ANSWERED, BEYOND, all, 1);
  }
}
