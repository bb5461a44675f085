/**
 * Shared buffers seen from both sides: the client library's descriptors (Session.cpp, mcMap and
 * mcUnmap), the daemon's records of the same session and the kernel's table.  What the kernel and
 * the secure world answer is input to each call.
 */
module ClientMemory {
  import opened Common

  type Handle = nat
  type Addr = nat

  /** A bulk-buffer descriptor; secure address 0 means not mapped (yet). */
  datatype Desc = Desc(virtAddr: Addr, sVirtualAddr: Addr, len: nat, handle: Handle)

  /** mcBulkMap_t. */
  datatype MapInfo = MapInfo(sVirtualAddr: Addr, sVirtualLen: nat)

  /** A buffer in the kernel's table: registered by the client, and the daemon's locks on it. */
  datatype Wsm = Wsm(owned: bool, locks: nat)

  datatype World = World(descs: seq<Desc>, records: map<Handle, nat>, kernel: map<Handle, Wsm>)

  /** What happens to a MAP command after the client has registered the buffer. */
  datatype DaemonMap = NotLocked | NotFound | RefusedByWorld | MappedAt(sVirtualAddr: Addr)

  datatype MapInput = MapInput(registered: bool, handle: Handle, daemon: DaemonMap)

  datatype Code = Ok | NullPointer | AlreadyMapped | KernelError | BufferNotFound | DaemonUnreachable

  // ---------------------------------------------------------------- Session

  /** Where a descriptor with the virtual address is, counted from the front; |descs| if nowhere. */
  function IndexOf(descs: seq<Desc>, virt: Addr): (i: nat)
    ensures i <= |descs|
    ensures forall k :: 0 <= k < i ==> descs[k].virtAddr != virt
    ensures i < |descs| ==> descs[i].virtAddr == virt
  {
    if descs == [] || descs[0].virtAddr == virt then 0 else 1 + IndexOf(descs[1..], virt)
  }

  predicate Describes(d: Desc, info: MapInfo) {
    d.sVirtualAddr == info.sVirtualAddr && d.len == info.sVirtualLen
  }

  /** Where the first descriptor with this secure address and length is; |descs| if nowhere. */
  function DescribedAt(descs: seq<Desc>, info: MapInfo): (i: nat)
    ensures i <= |descs|
    ensures forall k :: 0 <= k < i ==> !Describes(descs[k], info)
    ensures i < |descs| ==> Describes(descs[i], info)
  {
    if descs == [] || Describes(descs[0], info) then 0 else 1 + DescribedAt(descs[1..], info)
  }

  /** getBufHandle; 0 says that there is none. */
  function GetBufHandle(descs: seq<Desc>, info: MapInfo): Handle {
    var i := DescribedAt(descs, info);
    if i == |descs| then 0 else descs[i].handle
  }

  function Unregister(kernel: map<Handle, Wsm>, h: Handle): map<Handle, Wsm> {
    if h !in kernel then kernel
    else if kernel[h].locks == 0 then kernel - {h}
    else kernel[h := kernel[h].(owned := false)]
  }

  function Unlock(kernel: map<Handle, Wsm>, h: Handle): map<Handle, Wsm> {
    if h !in kernel || kernel[h].locks == 0 then kernel
    else if kernel[h].locks == 1 && !kernel[h].owned then kernel - {h}
    else kernel[h := kernel[h].(locks := kernel[h].locks - 1)]
  }

  /** removeBulkBuf. */
  function RemoveBulkBuf(w: World, virt: Addr): (World, Code) {
    var i := IndexOf(w.descs, virt);
    if i == |w.descs| then (w, BufferNotFound)
    else (w.(descs := w.descs[..i] + w.descs[i + 1..], kernel := Unregister(w.kernel, w.descs[i].handle)), Ok)
  }

  // ---------------------------------------------------------------- mcMap and mcUnmap

  /** What the kernel and the secure world are relied on for. */
  predicate Reliable(w: World, x: MapInput) {
    && x.handle != 0 && x.handle !in w.kernel
    && (x.daemon.MappedAt? ==>
          x.daemon.sVirtualAddr != 0 && forall d :: d in w.descs ==> d.sVirtualAddr != x.daemon.sVirtualAddr)
  }

  /** The daemon's part of MAP: lock, find, record, and ask the secure world. */
  function DaemonMaps(w: World, h: Handle, len: nat, outcome: DaemonMap): World
    requires h in w.kernel
  {
    if outcome.NotLocked? then w
    else
      var locked := w.(kernel := w.kernel[h := w.kernel[h].(locks := w.kernel[h].locks + 1)]);
      if outcome.NotFound? || h in w.records then locked else locked.(records := w.records[h := len])
  }

  function Map(w: World, buf: Addr, len: nat, x: MapInput): (World, Code, MapInfo) {
    var none := MapInfo(0, 0);
    if buf == 0 then (w, NullPointer, none)
    else if IndexOf(w.descs, buf) < |w.descs| then (w, AlreadyMapped, none)
    else if !x.registered then (w, KernelError, none)
    else
      var registered := w.(descs := w.descs + [Desc(buf, 0, len, x.handle)],
                           kernel := w.kernel[x.handle := Wsm(true, 0)]);
      var asked := DaemonMaps(registered, x.handle, len, x.daemon);
      if x.daemon.MappedAt? then
        (asked.(descs := w.descs + [Desc(buf, x.daemon.sVirtualAddr, len, x.handle)]), Ok,
         MapInfo(x.daemon.sVirtualAddr, len))
      else (RemoveBulkBuf(asked, buf).0, DaemonUnreachable, none)
  }

  /** findBulkBuff in the daemon. */
  predicate DaemonFinds(w: World, h: Handle, len: nat) { h in w.records && w.records[h] == len }

  function Unmap(w: World, buf: Addr, info: MapInfo, accepted: bool): (World, Code) {
    if buf == 0 || info.sVirtualAddr == 0 then (w, NullPointer)
    else
      var h := GetBufHandle(w.descs, info);
      if h == 0 then (w, BufferNotFound)
      else if !DaemonFinds(w, h, info.sVirtualLen) || !accepted then (w, DaemonUnreachable)
      else RemoveBulkBuf(w.(records := w.records - {h}, kernel := Unlock(w.kernel, h)), buf)
  }

  // ---------------------------------------------------------------- the two sides agree

  ghost predicate Distinct(descs: seq<Desc>) {
    forall i, j :: 0 <= i < j < |descs| ==>
      && descs[i].virtAddr != descs[j].virtAddr && descs[i].handle != descs[j].handle
      && (descs[i].sVirtualAddr != 0 ==> descs[i].sVirtualAddr != descs[j].sVirtualAddr)
  }

  /** A descriptor's buffer is registered; once mapped, the daemon has its record and a lock. */
  predicate Backed(w: World, d: Desc) {
    && d.handle != 0 && d.handle in w.kernel && w.kernel[d.handle].owned
    && (d.sVirtualAddr != 0 ==> DaemonFinds(w, d.handle, d.len))
  }

  ghost predicate Agree(w: World) {
    && Distinct(w.descs)
    && (forall i :: 0 <= i < |w.descs| ==> Backed(w, w.descs[i]))
    && (forall h :: h in w.records ==> h in w.kernel && w.kernel[h].locks > 0)
  }

  lemma HandleOfMapped(descs: seq<Desc>, i: nat)
    requires Distinct(descs) && i < |descs| && descs[i].sVirtualAddr != 0
    ensures DescribedAt(descs, MapInfo(descs[i].sVirtualAddr, descs[i].len)) == i
    ensures GetBufHandle(descs, MapInfo(descs[i].sVirtualAddr, descs[i].len)) == descs[i].handle
  {
    assert Describes(descs[i], MapInfo(descs[i].sVirtualAddr, descs[i].len));
  }

  lemma IndexOfAt(descs: seq<Desc>, i: nat)
    requires Distinct(descs) && i < |descs|
    ensures IndexOf(descs, descs[i].virtAddr) == i
  {}

  /**
   * The map information of a buffer that is still mapped: its handle is found, and the daemon's
   * test finds the record; the call fails only if the secure world refuses.
   */
  lemma UnmapAlwaysFinds(w: World, i: nat, accepted: bool)
    requires Agree(w) && i < |w.descs| && w.descs[i].sVirtualAddr != 0 && w.descs[i].virtAddr != 0
    ensures var d := w.descs[i]; var info := MapInfo(d.sVirtualAddr, d.len);
      && GetBufHandle(w.descs, info) == d.handle && DaemonFinds(w, d.handle, d.len)
      && Unmap(w, d.virtAddr, info, accepted).1 == if accepted then Ok else DaemonUnreachable
  {
    HandleOfMapped(w.descs, i);
    IndexOfAt(w.descs, i);
  }

  /** The client has a descriptor of the buffer. */
  predicate Known(w: World, buf: Addr) { exists i :: 0 <= i < |w.descs| && w.descs[i].virtAddr == buf }

  /** What mcMap reports, error by error; without the registration nothing has changed. */
  lemma MapReports(w: World, buf: Addr, len: nat, x: MapInput)
    ensures var (t, code, info) := Map(w, buf, len, x);
      && (code == NullPointer <==> buf == 0)
      && (code == AlreadyMapped <==> buf != 0 && Known(w, buf))
      && (code == KernelError <==> buf != 0 && !Known(w, buf) && !x.registered)
      && (code == DaemonUnreachable <==> buf != 0 && !Known(w, buf) && x.registered && !x.daemon.MappedAt?)
      && (code == Ok ==> info == MapInfo(x.daemon.sVirtualAddr, len))
      && (code == NullPointer || code == AlreadyMapped || code == KernelError ==> t == w)
  {}

  /** What mcUnmap reports; before the secure world has accepted nothing has changed. */
  lemma UnmapReports(w: World, buf: Addr, info: MapInfo, accepted: bool)
    requires Agree(w)
    ensures var (t, code) := Unmap(w, buf, info, accepted);
      var described := exists i :: 0 <= i < |w.descs| && Describes(w.descs[i], info);
      && (code == NullPointer <==> buf == 0 || info.sVirtualAddr == 0)
      && (code == BufferNotFound <==>
            buf != 0 && info.sVirtualAddr != 0 && (!described || (accepted && !Known(w, buf))))
      && (code == DaemonUnreachable <==> buf != 0 && info.sVirtualAddr != 0 && described && !accepted)
      && (code == Ok <==> buf != 0 && info.sVirtualAddr != 0 && described && accepted && Known(w, buf))
      && (!described || !accepted ==> t == w)
  {
    var i := DescribedAt(w.descs, info);
    if i < |w.descs| { assert Backed(w, w.descs[i]); }
  }

  // ---------------------------------------------------------------- every map keeps the agreement

  lemma MapKeepsAgreement(w: World, buf: Addr, len: nat, x: MapInput)
    requires Agree(w) && Reliable(w, x)
    ensures Agree(Map(w, buf, len, x).0)
  {
    var (t, code, _) := Map(w, buf, len, x);
    if code == Ok { MappedAgrees(w, buf, len, x); }
    else if code == DaemonUnreachable { FailedMapAgrees(w, buf, len, x); }
  }

  lemma MappedAgrees(w: World, buf: Addr, len: nat, x: MapInput)
    requires Agree(w) && Reliable(w, x) && Map(w, buf, len, x).1 == Ok
    ensures Agree(Map(w, buf, len, x).0)
  {
    var t := Map(w, buf, len, x).0;
    assert x.handle !in w.records;
    forall i | 0 <= i < |t.descs| ensures Backed(t, t.descs[i]) {
      if i < |w.descs| { assert Backed(w, w.descs[i]); }
    }
  }

  /** Taking back a registration: without the daemon's lock the kernel has forgotten the buffer. */
  lemma UnregisteredAgain(kernel: map<Handle, Wsm>, h: Handle)
    requires h !in kernel
    ensures Unregister(kernel[h := Wsm(true, 0)], h) == kernel
    ensures Unregister(kernel[h := Wsm(true, 0)][h := Wsm(true, 1)], h) == kernel[h := Wsm(false, 1)]
  {
    assert kernel[h := Wsm(true, 0)] - {h} == kernel;
  }

  /** A failed map leaves the client as it was; at most a record and a lock stay with the daemon. */
  lemma FailedMapLeavesClient(w: World, buf: Addr, len: nat, x: MapInput)
    requires Agree(w) && Reliable(w, x) && Map(w, buf, len, x).1 == DaemonUnreachable
    ensures var t := Map(w, buf, len, x).0;
      && t.descs == w.descs
      && t.records == (if x.daemon.RefusedByWorld? then w.records[x.handle := len] else w.records)
      && t.kernel == (if x.daemon.NotLocked? then w.kernel else w.kernel[x.handle := Wsm(false, 1)])
  {
    var d := Desc(buf, 0, len, x.handle);
    var registered := w.(descs := w.descs + [d], kernel := w.kernel[x.handle := Wsm(true, 0)]);
    var asked := DaemonMaps(registered, x.handle, len, x.daemon);
    assert x.handle !in w.records;
    assert asked.records == if x.daemon.RefusedByWorld? then w.records[x.handle := len] else w.records;
    assert Map(w, buf, len, x).0 == RemoveBulkBuf(asked, buf).0;
    IndexOfLast(w.descs, d);
    assert asked.descs == w.descs + [d] && asked.descs[|w.descs|] == d;
    UnregisteredAgain(w.kernel, x.handle);
  }

  lemma {:induction false} IndexOfLast(descs: seq<Desc>, d: Desc)
    requires IndexOf(descs, d.virtAddr) == |descs|
    ensures IndexOf(descs + [d], d.virtAddr) == |descs|
    ensures (descs + [d])[..|descs|] + (descs + [d])[|descs| + 1..] == descs
  {
    if descs != [] {
      IndexOfLast(descs[1..], d);
      assert (descs + [d])[1..] == descs[1..] + [d];
    }
  }

  lemma FailedMapAgrees(w: World, buf: Addr, len: nat, x: MapInput)
    requires Agree(w) && Reliable(w, x) && Map(w, buf, len, x).1 == DaemonUnreachable
    ensures Agree(Map(w, buf, len, x).0)
  {
    var t := Map(w, buf, len, x).0;
    FailedMapLeavesClient(w, buf, len, x);
    forall i | 0 <= i < |t.descs| ensures Backed(t, t.descs[i]) { assert Backed(w, w.descs[i]); }
  }

  // ---------------------------------------------------------------- and unmaps that match

  /** The descriptor the map information leads to. */
  ghost predicate Found(w: World, i: nat, info: MapInfo) {
    i < |w.descs| && info.sVirtualAddr != 0 && Describes(w.descs[i], info)
  }

  /** The world after an unmap of the i-th descriptor. */
  function Forgotten(w: World, i: nat): World
    requires i < |w.descs|
  {
    var h := w.descs[i].handle;
    World(w.descs[..i] + w.descs[i + 1..], w.records - {h}, Unregister(Unlock(w.kernel, h), h))
  }

  lemma MatchingUnmap(w: World, i: nat)
    requires Agree(w) && i < |w.descs| && w.descs[i].sVirtualAddr != 0 && w.descs[i].virtAddr != 0
    ensures Unmap(w, w.descs[i].virtAddr, MapInfo(w.descs[i].sVirtualAddr, w.descs[i].len), true)
         == (Forgotten(w, i), Ok)
  {
    UnmapAlwaysFinds(w, i, true);
    IndexOfAt(w.descs, i);
  }

  lemma ForgottenAgrees(w: World, i: nat)
    requires Agree(w) && i < |w.descs|
    ensures Agree(Forgotten(w, i))
  {
    var t, h := Forgotten(w, i), w.descs[i].handle;
    assert Backed(w, w.descs[i]);
    forall k | 0 <= k < |t.descs| ensures Backed(t, t.descs[k]) {
      var j := if k < i then k else k + 1;
      assert t.descs[k] == w.descs[j] && Backed(w, w.descs[j]);
      assert w.descs[j].handle != h;
    }
  }

  /**
   * An accepted unmap keeps the agreement exactly when the buffer and the map information belong
   * to the same descriptor, that is, come from one mcMap.
   */
  lemma UnmapKeepsAgreementExactlyWhen(w: World, buf: Addr, info: MapInfo, i: nat)
    requires Agree(w) && Found(w, i, info) && buf != 0
    ensures Agree(Unmap(w, buf, info, true).0) <==> w.descs[i].virtAddr == buf
  {
    HandleOfMapped(w.descs, i);
    assert Backed(w, w.descs[i]);
    if w.descs[i].virtAddr == buf {
      MatchingUnmap(w, i);
      ForgottenAgrees(w, i);
    } else {
      var t := Unmap(w, buf, info, true).0;
      StaysBehind(w, buf, i);
      var j :| 0 <= j < |t.descs| && t.descs[j] == w.descs[i];
      assert !Backed(t, t.descs[j]);
    }
  }

  /** The descriptor of the wrong buffer is removed, or none: the other one stays. */
  lemma StaysBehind(w: World, buf: Addr, i: nat)
    requires Agree(w) && i < |w.descs| && w.descs[i].sVirtualAddr != 0 && buf != 0
    requires w.descs[i].virtAddr != buf
    ensures var t := Unmap(w, buf, MapInfo(w.descs[i].sVirtualAddr, w.descs[i].len), true).0;
      t.records == w.records - {w.descs[i].handle} && exists j :: 0 <= j < |t.descs| && t.descs[j] == w.descs[i]
  {
    HandleOfMapped(w.descs, i);
    assert Backed(w, w.descs[i]);
    var t := Unmap(w, buf, MapInfo(w.descs[i].sVirtualAddr, w.descs[i].len), true).0;
    var k := IndexOf(w.descs, buf);
    var j := if i < k then i else i - 1;
    assert k == |w.descs| ==> t.descs[i] == w.descs[i];
    assert k < |w.descs| ==> t.descs[j] == w.descs[i];
  }

  // ---------------------------------------------------------------- any calls in any order

  datatype Call = CallMap(buf: Addr, len: nat, input: MapInput) | CallUnmap(buf: Addr, info: MapInfo, accepted: bool)

  /** The caller passes what one mcMap gave it; the environment is reliable. */
  ghost predicate Proper(w: World, call: Call) {
    match call
    case CallMap(_, _, x) => Reliable(w, x)
    case CallUnmap(buf, info, _) =>
      forall i: nat :: Found(w, i, info) ==> w.descs[i].virtAddr == buf
  }

  function After(w: World, call: Call): World {
    match call
    case CallMap(buf, len, x) => Map(w, buf, len, x).0
    case CallUnmap(buf, info, accepted) => Unmap(w, buf, info, accepted).0
  }

  ghost predicate ProperRun(w: World, calls: seq<Call>)
    decreases |calls|
  {
    calls == [] || (Proper(w, calls[0]) && ProperRun(After(w, calls[0]), calls[1..]))
  }

  function AfterAll(w: World, calls: seq<Call>): World
    decreases |calls|
  {
    if calls == [] then w else AfterAll(After(w, calls[0]), calls[1..])
  }

  lemma CallKeepsAgreement(w: World, call: Call)
    requires Agree(w) && Proper(w, call)
    ensures Agree(After(w, call))
  {
    match call
    case CallMap(buf, len, x) => MapKeepsAgreement(w, buf, len, x);
    case CallUnmap(buf, info, accepted) =>
      var h := GetBufHandle(w.descs, info);
      if buf != 0 && info.sVirtualAddr != 0 && h != 0 && accepted {
        var i := DescribedAt(w.descs, info);
        assert Found(w, i, info);
        UnmapKeepsAgreementExactlyWhen(w, buf, info, i);
      }
  }

  /** Client, daemon and kernel agree after every proper run of maps and unmaps. */
  lemma {:induction false} RunsKeepAgreement(w: World, calls: seq<Call>)
    requires Agree(w) && ProperRun(w, calls)
    ensures Agree(AfterAll(w, calls))
    decreases |calls|
  {
    if calls != [] {
      CallKeepsAgreement(w, calls[0]);
      RunsKeepAgreement(After(w, calls[0]), calls[1..]);
    }
  }

  /** The kernel keeps only buffers that are registered or locked. */
  ghost predicate AllNeeded(kernel: map<Handle, Wsm>) {
    forall h :: h in kernel ==> kernel[h].owned || kernel[h].locks > 0
  }

  lemma UnregisterNeeded(kernel: map<Handle, Wsm>, h: Handle)
    requires AllNeeded(kernel)
    ensures AllNeeded(Unregister(kernel, h))
  {}

  lemma UnlockNeeded(kernel: map<Handle, Wsm>, h: Handle)
    requires AllNeeded(kernel)
    ensures AllNeeded(Unlock(kernel, h))
  {}

  lemma MapForgetsNothing(w: World, buf: Addr, len: nat, x: MapInput)
    requires AllNeeded(w.kernel)
    ensures AllNeeded(Map(w, buf, len, x).0.kernel)
  {
    var registered := w.(descs := w.descs + [Desc(buf, 0, len, x.handle)],
                         kernel := w.kernel[x.handle := Wsm(true, 0)]);
    var asked := DaemonMaps(registered, x.handle, len, x.daemon);
    var i := IndexOf(asked.descs, buf);
    if i < |asked.descs| { UnregisterNeeded(asked.kernel, asked.descs[i].handle); }
  }

  lemma UnmapForgetsNothing(w: World, buf: Addr, info: MapInfo, accepted: bool)
    requires AllNeeded(w.kernel)
    ensures AllNeeded(Unmap(w, buf, info, accepted).0.kernel)
  {
    var kernel, i := Unlock(w.kernel, GetBufHandle(w.descs, info)), IndexOf(w.descs, buf);
    UnlockNeeded(w.kernel, GetBufHandle(w.descs, info));
    if i < |w.descs| { UnregisterNeeded(kernel, w.descs[i].handle); }
  }

  /** Whatever is called in whatever order, a buffer nobody needs is not kept in the kernel. */
  lemma {:induction false} NothingStaysForgotten(w: World, calls: seq<Call>)
    requires AllNeeded(w.kernel)
    ensures AllNeeded(AfterAll(w, calls).kernel)
    decreases |calls|
  {
    if calls != [] {
      match calls[0] {
        case CallMap(buf, len, x) => MapForgetsNothing(w, buf, len, x);
        case CallUnmap(buf, info, accepted) => UnmapForgetsNothing(w, buf, info, accepted);
      }
      NothingStaysForgotten(After(w, calls[0]), calls[1..]);
    }
  }

  // ---------------------------------------------------------------- a run that is not proper

  const FIRST := Desc(4096, 8192, 16, 1)
  const SECOND := Desc(5120, 9216, 16, 2)
  const ONE_MAPPED := World([FIRST], map[1 := 16], map[1 := Wsm(true, 1)])
  const TWO_MAPPED := World([FIRST, SECOND], map[1 := 16, 2 := 16], map[1 := Wsm(true, 1), 2 := Wsm(true, 1)])

  lemma OneIsMapped()
    ensures Map(World([], map[], map[]), 4096, 16, MapInput(true, 1, MappedAt(8192))).0 == ONE_MAPPED
    ensures Agree(ONE_MAPPED)
  {
    MapKeepsAgreement(World([], map[], map[]), 4096, 16, MapInput(true, 1, MappedAt(8192)));
  }

  lemma TwoAreMapped()
    ensures Map(ONE_MAPPED, 5120, 16, MapInput(true, 2, MappedAt(9216))).0 == TWO_MAPPED
    ensures Agree(TWO_MAPPED)
  {
    OneIsMapped();
    assert IndexOf([FIRST], 5120) == 1;
    MapKeepsAgreement(ONE_MAPPED, 5120, 16, MapInput(true, 2, MappedAt(9216)));
  }

  const BOTH_MAPS := [CallMap(4096, 16, MapInput(true, 1, MappedAt(8192))),
                      CallMap(5120, 16, MapInput(true, 2, MappedAt(9216)))]

  lemma BothAreMapped()
    ensures AfterAll(World([], map[], map[]), BOTH_MAPS) == TWO_MAPPED
  {
    OneIsMapped();
    TwoAreMapped();
    assert BOTH_MAPS[1..][1..] == [];
    assert AfterAll(TWO_MAPPED, BOTH_MAPS[1..][1..]) == TWO_MAPPED;
    assert AfterAll(ONE_MAPPED, BOTH_MAPS[1..]) == TWO_MAPPED;
  }

  lemma MixedUnmap(w: World)
    requires w == TWO_MAPPED && Agree(w)
    ensures Unmap(w, 5120, MapInfo(8192, 16), true).1 == Ok && !Agree(Unmap(w, 5120, MapInfo(8192, 16), true).0)
  {
    assert Found(w, 0, MapInfo(8192, 16));
    HandleOfMapped(w.descs, 0);
    IndexOfAt(w.descs, 1);
    UnmapKeepsAgreementExactlyWhen(w, 5120, MapInfo(8192, 16), 0);
  }

  /** Two buffers are mapped and the second is unmapped with the information of the first. */
  lemma MixedUnmapDisagrees()
    ensures var w := AfterAll(World([], map[], map[]), BOTH_MAPS);
      Agree(w) && Unmap(w, 5120, MapInfo(8192, 16), true).1 == Ok && !Agree(Unmap(w, 5120, MapInfo(8192, 16), true).0)
  {
    BothAreMapped();
    TwoAreMapped();
    MixedUnmap(TWO_MAPPED);
  }
}
