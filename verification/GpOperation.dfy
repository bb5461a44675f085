/**
 * The parameters of a GlobalPlatform operation (section 4.5 of the TEE Client API Specification
 * v1.0): setting them up maps the caller's buffers into the session, unwinding unmaps them.
 */
module GpOperation {
  import opened Bits
  import opened Common
  import opened ClientMemory

  const TEEC_VALUE_INPUT := 1
  const TEEC_VALUE_OUTPUT := 2
  const TEEC_VALUE_INOUT := 3
  const TEEC_MEMREF_TEMP_INPUT := 5
  const TEEC_MEMREF_TEMP_INOUT := 7
  const TEEC_MEMREF_WHOLE := 12
  const TEEC_MEMREF_PARTIAL_INPUT := 13
  const TEEC_MEMREF_PARTIAL_OUTPUT := 14
  const TEEC_MEM_INPUT := 1
  const TEEC_MEM_OUTPUT := 2
  const TEEC_ORIGIN_TRUSTED_APP := 4
  const TEEC_SUCCESS := 0
  const TWO_32: nat := 0x1_0000_0000

  datatype SharedMemory = SharedMemory(buffer: Addr, size: nat, flags: nat)

  /** TEEC_Parameter, with the members of the union side by side. */
  datatype Parameter = Parameter(
    a: nat, b: nat, tmpBuffer: Addr, tmpSize: nat, parent: SharedMemory, offset: nat, size: nat)

  type Parameters = s: seq<Parameter> | |s| == 4 witness seq(4, _ => Parameter(0, 0, 0, 0, SharedMemory(0, 0, 0), 0, 0))

  datatype Operation = Operation(paramTypes: nat, params: Parameters)

  /** _TEEC_ParameterInternal. */
  datatype Internal = Internal(info: MapInfo, a: nat, b: nat, outputSize: nat)

  type Internals = s: seq<Internal> | |s| == 4 witness seq(4, _ => Internal(MapInfo(0, 0), 0, 0, 0))

  datatype Tci = Tci(paramTypes: nat, params: Internals, returnOrigin: nat, returnStatus: nat)

  type Inputs = s: seq<MapInput> | |s| == 4 witness seq(4, _ => MapInput(false, 0, NotLocked))

  type Answers = s: seq<bool> | |s| == 4 witness [true, true, true, true]

  datatype Status = Success | BadParameters | CommsError | Cancelled

  /** _TEEC_GET_PARAM_TYPE. */
  function ParamType(types: nat, i: nat): nat
    requires i < 4
  {
    match i
    case 0 => types % 16
    case 1 => types / 16 % 16
    case 2 => types / 256 % 16
    case _ => types / 4096 % 16
  }

  predicate IsValue(t: nat) { t <= 3 }
  predicate IsTemp(t: nat) { 5 <= t <= 7 }
  predicate IsPartial(t: nat) { 13 <= t <= 15 }

  /** Which buffer a memory reference stands for. */
  function Buffer(op: Operation, i: nat): Addr
    requires i < 4
  {
    var t, p := ParamType(op.paramTypes, i), op.params[i];
    if IsTemp(t) then p.tmpBuffer
    else if t == TEEC_MEMREF_WHOLE then p.parent.buffer
    else if IsPartial(t) then p.parent.buffer + p.offset
    else 0
  }

  function Size(op: Operation, i: nat): nat
    requires i < 4
  {
    var t, p := ParamType(op.paramTypes, i), op.params[i];
    if IsTemp(t) then p.tmpSize
    else if t == TEEC_MEMREF_WHOLE then p.parent.size
    else if IsPartial(t) then p.size
    else 0
  }

  /** Parameters that are rejected: unknown types, data flow against the flags, and out of range. */
  predicate Rejected(op: Operation, i: nat)
    requires i < 4
  {
    var t, p := ParamType(op.paramTypes, i), op.params[i];
    if IsPartial(t) then
      (p.parent.flags % 4 == TEEC_MEM_INPUT && t == TEEC_MEMREF_PARTIAL_OUTPUT)
      || (p.parent.flags % 4 == TEEC_MEM_OUTPUT && t == TEEC_MEMREF_PARTIAL_INPUT)
      || (p.offset + p.size) % TWO_32 > p.parent.size
    else !IsValue(t) && !IsTemp(t) && t != TEEC_MEMREF_WHOLE
  }

  /** A null temporary reference is not mapped; one without a size never is. */
  predicate Mapping(op: Operation, i: nat)
    requires i < 4
  {
    Size(op, i) != 0 && (IsTemp(ParamType(op.paramTypes, i)) ==> Buffer(op, i) != 0)
  }

  /** The type as the trusted application sees it: neither whole nor partial, just a reference. */
  function SentType(op: Operation, i: nat): nat
    requires i < 4
  {
    var t := ParamType(op.paramTypes, i);
    if t == TEEC_MEMREF_WHOLE then Or(op.params[i].parent.flags, 4) % 256
    else if IsPartial(t) then And(t, TEEC_MEMREF_TEMP_INOUT)
    else t
  }

  // ---------------------------------------------------------------- _TEEC_SetupOperation

  function SetupParam(w: World, tci: Tci, op: Operation, x: MapInput, i: nat): (World, Tci, Status)
    requires i < 4
  {
    var t, imp := ParamType(op.paramTypes, i), tci.params[i];
    if Rejected(op, i) then (w, tci, BadParameters)
    else
      var typed := tci.(paramTypes := Or(tci.paramTypes, Shl(SentType(op, i), 4 * i)));
      if IsValue(t) then
        var copied := if t == TEEC_VALUE_INPUT || t == TEEC_VALUE_INOUT
                      then imp.(a := op.params[i].a, b := op.params[i].b) else imp;
        (w, typed.(params := tci.params[i := copied]), Success)
      else if !Mapping(op, i) then
        (w, typed.(params := tci.params[i := imp.(info := imp.info.(sVirtualLen := 0))]), Success)
      else
        var (mapped, code, info) := Map(w, Buffer(op, i), Size(op, i), x);
        if code == Ok then (mapped, typed.(params := tci.params[i := imp.(info := info)]), Success)
        else (mapped, typed.(params := tci.params[i := imp.(info := imp.info.(sVirtualLen := 0))]), CommsError)
  }

  function SetupFrom(w: World, tci: Tci, op: Operation, xs: Inputs, i: nat): (World, Tci, Status)
    requires i <= 4
    decreases |op.params| - i
  {
    if i == 4 then (w, tci, Success)
    else
      var (v, u, status) := SetupParam(w, tci, op, xs[i], i);
      if status == Success then SetupFrom(v, u, op, xs, i + 1) else (v, u, status)
  }

  /** The operation part of the TCI zeroed out. */
  function Cleared(tci: Tci): Tci {
    tci.(paramTypes := 0, params := seq(4, _ => Internal(MapInfo(0, 0), 0, 0, 0)))
  }

  /** All of it; when it fails, what was mapped is unwound as far as the stale answer allows. */
  function Setup(w: World, tci: Tci, op: Operation, xs: Inputs, cancelled: bool, accepts: Answers)
    : (World, Tci, Status)
  {
    var (v, u, status) := SetupFrom(w, tci.(paramTypes := 0), op, xs, 0);
    var final := if cancelled then Cancelled else status;
    if final == Success then (v, u, Success)
    else (Unwind(v, u, op, accepts), Cleared(u), final)
  }

  // ---------------------------------------------------------------- _TEEC_UnwindOperation

  function UnwindFrom(w: World, tci: Tci, op: Operation, accepts: Answers, i: nat): World
    requires i <= 4
    decreases |op.params| - i
  {
    if i == 4 then w
    else UnwindFrom(UnwindParam(w, tci, op, accepts[i], i), tci, op, accepts, i + 1)
  }

  function UnwindParam(w: World, tci: Tci, op: Operation, accepted: bool, i: nat): World
    requires i < 4
  {
    if Buffer(op, i) != 0 && tci.params[i].info.sVirtualLen != 0
    then Unmap(w, Buffer(op, i), tci.params[i].info, accepted).0
    else w
  }

  /** The answer is not that of a trusted application that ran. */
  predicate NotAnswered(tci: Tci) {
    tci.returnOrigin == 0 || (tci.returnOrigin != TEEC_ORIGIN_TRUSTED_APP && tci.returnStatus != TEEC_SUCCESS)
  }

  function Unwind(w: World, tci: Tci, op: Operation, accepts: Answers): World {
    if NotAnswered(tci) then w else UnwindFrom(w, tci, op, accepts, 0)
  }

  // ---------------------------------------------------------------- what setting up adds

  /** One more mapped buffer, on the client's, the daemon's and the kernel's side. */
  function Extended(w: World, d: Desc): World {
    World(w.descs + [d], w.records[d.handle := d.len], w.kernel[d.handle := Wsm(true, 1)])
  }

  function ExtendedBy(w: World, ds: seq<Desc>): World
    decreases |ds|
  {
    if ds == [] then w else ExtendedBy(Extended(w, ds[0]), ds[1..])
  }

  /** The descriptors of the parameters from i on that are mapped. */
  function Added(op: Operation, xs: Inputs, i: nat): seq<Desc>
    requires i <= 4
    decreases |op.params| - i
  {
    if i == 4 then [] else AddedBy(op, xs[i], i) + Added(op, xs, i + 1)
  }

  function AddedBy(op: Operation, x: MapInput, i: nat): seq<Desc>
    requires i < 4
  {
    if Mapping(op, i) && x.daemon.MappedAt?
    then [Desc(Buffer(op, i), x.daemon.sVirtualAddr, Size(op, i), x.handle)] else []
  }

  /** The kernel and the secure world can be relied on in every map of the setup. */
  ghost predicate ReliableFrom(w: World, tci: Tci, op: Operation, xs: Inputs, i: nat)
    requires i <= 4
    decreases |op.params| - i
  {
    i == 4 || (
      Reliable(w, xs[i])
      && var (v, u, status) := SetupParam(w, tci, op, xs[i], i);
         status == Success ==> ReliableFrom(v, u, op, xs, i + 1))
  }

  /** The map information of the parameter is as setting it up left it. */
  predicate Intact(tci: Tci, op: Operation, x: MapInput, i: nat)
    requires i < 4
  {
    if Mapping(op, i) then
      && x.daemon.MappedAt? && x.daemon.sVirtualAddr != 0 && Buffer(op, i) != 0
      && tci.params[i].info == MapInfo(x.daemon.sVirtualAddr, Size(op, i))
    else Buffer(op, i) != 0 ==> tci.params[i].info.sVirtualLen == 0
  }

  lemma MapIsExtended(w: World, buf: Addr, len: nat, x: MapInput)
    requires Agree(w) && Reliable(w, x) && Map(w, buf, len, x).1 == Ok
    ensures buf != 0 && x.daemon.MappedAt?
    ensures Map(w, buf, len, x).0 == Extended(w, Desc(buf, x.daemon.sVirtualAddr, len, x.handle))
    ensures Map(w, buf, len, x).2 == MapInfo(x.daemon.sVirtualAddr, len)
  {
    assert x.handle !in w.records;
  }

  lemma SetupParamAdds(w: World, tci: Tci, op: Operation, x: MapInput, i: nat)
    requires i < 4 && Agree(w) && Reliable(w, x) && SetupParam(w, tci, op, x, i).2 == Success
    ensures var (v, u, _) := SetupParam(w, tci, op, x, i);
      && v == ExtendedBy(w, AddedBy(op, x, i)) && Agree(v) && Intact(u, op, x, i)
      && forall j :: 0 <= j < 4 && j != i ==> u.params[j] == tci.params[j]
  {
    if !IsValue(ParamType(op.paramTypes, i)) && Mapping(op, i) {
      var buf, len := Buffer(op, i), Size(op, i);
      MapIsExtended(w, buf, len, x);
      MapKeepsAgreement(w, buf, len, x);
      var d := Desc(buf, x.daemon.sVirtualAddr, len, x.handle);
      assert ExtendedBy(w, [d]) == ExtendedBy(Extended(w, d), []);
    }
  }

  lemma {:induction false} SetupAdds(w: World, tci: Tci, op: Operation, xs: Inputs, i: nat)
    requires i <= 4 && Agree(w) && ReliableFrom(w, tci, op, xs, i) && SetupFrom(w, tci, op, xs, i).2 == Success
    ensures var (v, u, _) := SetupFrom(w, tci, op, xs, i);
      v == ExtendedBy(w, Added(op, xs, i)) && Agree(v)
    decreases |op.params| - i
  {
    if i < 4 {
      var (v, u, _) := SetupParam(w, tci, op, xs[i], i);
      SetupParamAdds(w, tci, op, xs[i], i);
      SetupAdds(v, u, op, xs, i + 1);
      ExtendedTwice(w, AddedBy(op, xs[i], i), Added(op, xs, i + 1));
    }
  }

  lemma {:induction false} SetupLeavesInfo(w: World, tci: Tci, op: Operation, xs: Inputs, i: nat)
    requires i <= 4 && Agree(w) && ReliableFrom(w, tci, op, xs, i) && SetupFrom(w, tci, op, xs, i).2 == Success
    ensures var u := SetupFrom(w, tci, op, xs, i).1;
      && (forall j :: i <= j < 4 ==> Intact(u, op, xs[j], j))
      && (forall j :: 0 <= j < i ==> u.params[j] == tci.params[j])
    decreases |op.params| - i
  {
    if i < 4 {
      var (v, u, _) := SetupParam(w, tci, op, xs[i], i);
      SetupParamAdds(w, tci, op, xs[i], i);
      SetupLeavesInfo(v, u, op, xs, i + 1);
    }
  }

  lemma {:induction false} ExtendedTwice(w: World, a: seq<Desc>, b: seq<Desc>)
    ensures ExtendedBy(ExtendedBy(w, a), b) == ExtendedBy(w, a + b)
    decreases |a|
  {
    if a == [] {
      assert a + b == b;
    } else {
      assert (a + b)[1..] == a[1..] + b;
      ExtendedTwice(Extended(w, a[0]), a[1..], b);
    }
  }

  // ---------------------------------------------------------------- what unwinding takes away

  lemma {:induction false} ExtendedDescs(w: World, ds: seq<Desc>)
    ensures ExtendedBy(w, ds).descs == w.descs + ds
    decreases |ds|
  {
    if ds != [] { ExtendedDescs(Extended(w, ds[0]), ds[1..]); }
  }

  lemma ForgetCommutes(w: World, d: Desc, i: nat)
    requires i < |w.descs| && d.handle != w.descs[i].handle
    ensures Forgotten(Extended(w, d), i) == Extended(Forgotten(w, i), d)
  {
    var a, b := Forgotten(Extended(w, d), i), Extended(Forgotten(w, i), d);
    assert a.descs == b.descs;
    assert a.records == b.records;
    assert a.kernel == b.kernel;
  }

  lemma {:induction false} ForgetCommutesAll(w: World, ds: seq<Desc>, i: nat)
    requires i < |w.descs| && forall d :: d in ds ==> d.handle != w.descs[i].handle
    ensures ExtendedBy(w, ds).descs == w.descs + ds
    ensures Forgotten(ExtendedBy(w, ds), i) == ExtendedBy(Forgotten(w, i), ds)
    decreases |ds|
  {
    ExtendedDescs(w, ds);
    if ds != [] {
      ForgetCommutes(w, ds[0], i);
      ForgetCommutesAll(Extended(w, ds[0]), ds[1..], i);
    }
  }

  lemma ForgetLast(w: World, d: Desc)
    requires d.handle !in w.kernel && d.handle !in w.records
    ensures Forgotten(Extended(w, d), |w.descs|) == w
  {
    var t := Forgotten(Extended(w, d), |w.descs|);
    assert t.descs == w.descs;
    assert t.records == w.records;
    assert t.kernel == w.kernel;
  }

  /** The first of several added buffers can be forgotten as if it had never been added. */
  lemma ForgetFirst(w: World, d: Desc, ds: seq<Desc>)
    requires d.handle !in w.kernel && d.handle !in w.records
    requires Distinct(ExtendedBy(w, [d] + ds).descs)
    ensures ExtendedBy(w, [d] + ds).descs == w.descs + ([d] + ds)
    ensures Forgotten(ExtendedBy(w, [d] + ds), |w.descs|) == ExtendedBy(w, ds)
  {
    var n := |w.descs|;
    ExtendedDescs(w, [d] + ds);
    var all := w.descs + ([d] + ds);
    forall e | e in ds ensures e.handle != d.handle {
      var k :| 0 <= k < |ds| && ds[k] == e;
      assert all[n] == d && all[n + 1 + k] == e;
    }
    assert ([d] + ds)[1..] == ds;
    ForgetCommutesAll(Extended(w, d), ds, n);
    ForgetLast(w, d);
  }

  /** The handles the kernel gave out were not in its table before. */
  lemma {:induction false} AddedFresh(w: World, tci: Tci, op: Operation, xs: Inputs, i: nat)
    requires i <= 4 && Agree(w) && ReliableFrom(w, tci, op, xs, i) && SetupFrom(w, tci, op, xs, i).2 == Success
    ensures forall d :: d in Added(op, xs, i) ==> d.handle !in w.kernel
    decreases |op.params| - i
  {
    if i < 4 {
      var (v, u, _) := SetupParam(w, tci, op, xs[i], i);
      SetupParamAdds(w, tci, op, xs[i], i);
      AddedFresh(v, u, op, xs, i + 1);
      ExtendedKeeps(w, AddedBy(op, xs[i], i));
    }
  }

  lemma {:induction false} ExtendedKeeps(w: World, ds: seq<Desc>)
    ensures forall h :: h in w.kernel ==> h in ExtendedBy(w, ds).kernel
    decreases |ds|
  {
    if ds != [] { ExtendedKeeps(Extended(w, ds[0]), ds[1..]); }
  }

  /** Of the buffers mapped for the parameters from i on, those whose unmap is refused. */
  function RefusedOf(op: Operation, xs: Inputs, accepts: Answers, i: nat): seq<Desc>
    requires i <= 4
    decreases |op.params| - i
  {
    if i == 4 then [] else (if accepts[i] then [] else AddedBy(op, xs[i], i)) + RefusedOf(op, xs, accepts, i + 1)
  }

  /** What has been added up to a point agrees, if all of it does. */
  lemma PrefixAgrees(w: World, d: Desc, ds: seq<Desc>)
    requires Agree(w) && Agree(ExtendedBy(w, [d] + ds)) && d.handle !in w.kernel
    ensures Agree(Extended(w, d))
  {
    var t, all := Extended(w, d), ExtendedBy(w, [d] + ds);
    ExtendedDescs(w, [d] + ds);
    forall i, j | 0 <= i < j < |t.descs|
      ensures && t.descs[i].virtAddr != t.descs[j].virtAddr && t.descs[i].handle != t.descs[j].handle
              && (t.descs[i].sVirtualAddr != 0 ==> t.descs[i].sVirtualAddr != t.descs[j].sVirtualAddr)
    {
      assert t.descs[i] == all.descs[i] && t.descs[j] == all.descs[j];
    }
    forall i | 0 <= i < |t.descs| ensures Backed(t, t.descs[i]) {
      if i < |w.descs| { assert Backed(w, w.descs[i]); }
      else { assert all.descs[i] == d && Backed(all, all.descs[i]); }
    }
  }

  /** One unmap of several: accepted, it takes its buffer back; refused, it leaves everything. */
  lemma UnwindOne(w: World, tci: Tci, op: Operation, xs: Inputs, accepted: bool, i: nat)
    requires i < 4 && Agree(w) && Agree(ExtendedBy(w, Added(op, xs, i))) && Intact(tci, op, xs[i], i)
    requires forall d :: d in Added(op, xs, i) ==> d.handle !in w.kernel
    ensures var v := ExtendedBy(w, if accepted then [] else AddedBy(op, xs[i], i));
      && UnwindParam(ExtendedBy(w, Added(op, xs, i)), tci, op, accepted, i) == ExtendedBy(v, Added(op, xs, i + 1))
      && Agree(v) && Agree(ExtendedBy(v, Added(op, xs, i + 1)))
      && forall d :: d in Added(op, xs, i + 1) ==> d.handle !in v.kernel
  {
    var rest := Added(op, xs, i + 1);
    if Mapping(op, i) {
      var d := Desc(Buffer(op, i), xs[i].daemon.sVirtualAddr, Size(op, i), xs[i].handle);
      assert Added(op, xs, i) == [d] + rest && d in Added(op, xs, i);
      OneOfSeveral(w, d, rest, accepted);
    } else {
      assert Added(op, xs, i) == rest;
    }
  }

  lemma OneOfSeveral(w: World, d: Desc, rest: seq<Desc>, accepted: bool)
    requires Agree(w) && Agree(ExtendedBy(w, [d] + rest)) && d.sVirtualAddr != 0 && d.virtAddr != 0
    requires forall e :: e in [d] + rest ==> e.handle !in w.kernel
    ensures var v := ExtendedBy(w, if accepted then [] else [d]);
      && Unmap(ExtendedBy(w, [d] + rest), d.virtAddr, MapInfo(d.sVirtualAddr, d.len), accepted).0 == ExtendedBy(v, rest)
      && Agree(v) && Agree(ExtendedBy(v, rest))
      && forall e :: e in rest ==> e.handle !in v.kernel
  {
    var all := ExtendedBy(w, [d] + rest);
    assert d in [d] + rest && ([d] + rest)[1..] == rest;
    ExtendedDescs(w, [d] + rest);
    assert all.descs[|w.descs|] == d;
    if accepted {
      ForgetFirst(w, d, rest);
      MatchingUnmap(all, |w.descs|);
      ForgottenAgrees(all, |w.descs|);
    } else {
      PrefixAgrees(w, d, rest);
      assert ExtendedBy(w, [d]) == ExtendedBy(Extended(w, d), []);
      forall e | e in rest ensures e.handle != d.handle {
        var k :| 0 <= k < |rest| && rest[k] == e;
        assert all.descs[|w.descs| + 1 + k] == e;
      }
    }
  }

  /** Unwinding leaves exactly the buffers whose unmap is refused, in their order. */
  lemma {:induction false} UnwindLeavesRefused(w: World, tci: Tci, op: Operation, xs: Inputs, accepts: Answers, i: nat)
    requires i <= 4 && Agree(w) && Agree(ExtendedBy(w, Added(op, xs, i)))
    requires forall j :: i <= j < 4 ==> Intact(tci, op, xs[j], j)
    requires forall d :: d in Added(op, xs, i) ==> d.handle !in w.kernel
    ensures UnwindFrom(ExtendedBy(w, Added(op, xs, i)), tci, op, accepts, i)
         == ExtendedBy(w, RefusedOf(op, xs, accepts, i))
    decreases |op.params| - i
  {
    if i < 4 {
      var now := if accepts[i] then [] else AddedBy(op, xs[i], i);
      UnwindOne(w, tci, op, xs, accepts[i], i);
      UnwindLeavesRefused(ExtendedBy(w, now), tci, op, xs, accepts, i + 1);
      ExtendedTwice(w, now, RefusedOf(op, xs, accepts, i + 1));
    }
  }

  /** Every unmap of a mapped parameter is accepted. */
  predicate AllAccepted(op: Operation, accepts: Answers, i: nat)
    requires i <= 4
  {
    forall j :: i <= j < 4 && Mapping(op, j) ==> accepts[j]
  }

  lemma {:induction false} NoneRefused(tci: Tci, op: Operation, xs: Inputs, accepts: Answers, i: nat)
    requires i <= 4 && forall j :: i <= j < 4 ==> Intact(tci, op, xs[j], j)
    ensures RefusedOf(op, xs, accepts, i) == [] <==> AllAccepted(op, accepts, i)
    decreases |op.params| - i
  {
    if i < 4 { NoneRefused(tci, op, xs, accepts, i + 1); }
  }

  lemma NothingAdded(w: World, ds: seq<Desc>)
    ensures ExtendedBy(w, ds) == w <==> ds == []
  {
    ExtendedDescs(w, ds);
    assert ds != [] ==> |w.descs + ds| > |w.descs|;
  }

  /** What every successful setup leaves for the unwinding, whatever the trusted application answers. */
  lemma SetUp(w: World, tci: Tci, op: Operation, xs: Inputs, answer: Tci)
    requires Agree(w) && ReliableFrom(w, tci, op, xs, 0) && SetupFrom(w, tci, op, xs, 0).2 == Success
    requires forall i :: 0 <= i < 4 ==> answer.params[i].info == SetupFrom(w, tci, op, xs, 0).1.params[i].info
    ensures SetupFrom(w, tci, op, xs, 0).0 == ExtendedBy(w, Added(op, xs, 0)) && Agree(ExtendedBy(w, Added(op, xs, 0)))
    ensures forall j :: 0 <= j < 4 ==> Intact(answer, op, xs[j], j)
    ensures forall d :: d in Added(op, xs, 0) ==> d.handle !in w.kernel
  {
    var u := SetupFrom(w, tci, op, xs, 0).1;
    SetupAdds(w, tci, op, xs, 0);
    SetupLeavesInfo(w, tci, op, xs, 0);
    AddedFresh(w, tci, op, xs, 0);
    forall j | 0 <= j < 4 ensures Intact(answer, op, xs[j], j) { assert Intact(u, op, xs[j], j); }
  }

  /**
   * A setup that succeeded, answered with the map information intact: if the trusted application ran,
   * or something else answered with success, unwinding leaves exactly the buffers whose unmap is
   * refused, which nothing reports, so that descriptors, daemon records and kernel table are as before
   * exactly when none is; without such an answer everything stays mapped.
   */
  lemma SetupUndoneExactlyWhen(w: World, tci: Tci, op: Operation, xs: Inputs, accepts: Answers, answer: Tci)
    requires Agree(w) && ReliableFrom(w, tci.(paramTypes := 0), op, xs, 0)
    requires Setup(w, tci, op, xs, false, accepts).2 == Success
    requires forall i :: 0 <= i < 4 ==>
      answer.params[i].info == Setup(w, tci, op, xs, false, accepts).1.params[i].info
    ensures var before := Setup(w, tci, op, xs, false, accepts).0; var after := Unwind(before, answer, op, accepts);
      if answer.returnOrigin == 4 || (answer.returnOrigin != 0 && answer.returnStatus == 0) then
        after == ExtendedBy(w, RefusedOf(op, xs, accepts, 0)) && (after == w <==> AllAccepted(op, accepts, 0))
      else after == before
  {
    SetUp(w, tci.(paramTypes := 0), op, xs, answer);
    UnwindLeavesRefused(w, answer, op, xs, accepts, 0);
    NoneRefused(answer, op, xs, accepts, 0);
    NothingAdded(w, RefusedOf(op, xs, accepts, 0));
  }

  // ---------------------------------------------------------------- a setup that does not go through

  /** Setting up leaves the answer of the last operation in the TCI. */
  lemma {:induction false} AnswerStays(w: World, tci: Tci, op: Operation, xs: Inputs, i: nat)
    requires i <= 4
    ensures NotAnswered(SetupFrom(w, tci, op, xs, i).1) == NotAnswered(tci)
    decreases |op.params| - i
  {
    if i < 4 {
      var (v, u, status) := SetupParam(w, tci, op, xs[i], i);
      assert u.returnOrigin == tci.returnOrigin && u.returnStatus == tci.returnStatus;
      if status == Success { AnswerStays(v, u, op, xs, i + 1); }
    }
  }

  /** Cancelled after everything was mapped: undone exactly if the last operation was answered, too. */
  lemma CancelUndoneExactlyWhen(w: World, tci: Tci, op: Operation, xs: Inputs, accepts: Answers)
    requires Agree(w) && ReliableFrom(w, tci.(paramTypes := 0), op, xs, 0)
    requires Setup(w, tci, op, xs, false, accepts).2 == Success
    ensures Setup(w, tci, op, xs, true, accepts).0 == w <==>
      forall i :: 0 <= i < 4 && Mapping(op, i) ==> accepts[i] && !NotAnswered(tci)
  {
    var start := tci.(paramTypes := 0);
    var (v, u, _) := SetupFrom(w, start, op, xs, 0);
    SetUp(w, start, op, xs, u);
    AnswerStays(w, start, op, xs, 0);
    var none: Answers := [false, false, false, false];
    if NotAnswered(tci) {
      AddedIsRefused(op, xs, none, 0);
      NoneRefused(u, op, xs, none, 0);
      NothingAdded(w, Added(op, xs, 0));
    } else {
      UnwindLeavesRefused(w, u, op, xs, accepts, 0);
      NoneRefused(u, op, xs, accepts, 0);
      NothingAdded(w, RefusedOf(op, xs, accepts, 0));
    }
  }

  lemma {:induction false} AddedIsRefused(op: Operation, xs: Inputs, none: Answers, i: nat)
    requires i <= 4 && forall j :: 0 <= j < 4 ==> !none[j]
    ensures RefusedOf(op, xs, none, i) == Added(op, xs, i)
    decreases |op.params| - i
  {
    if i < 4 { AddedIsRefused(op, xs, none, i + 1); }
  }

  /** What the code asks of a parameter, in the caller's fields; 13 reads and 14 writes a part only. */
  predicate Sound(t: nat, p: Parameter) {
    && (t <= 3 || 5 <= t <= 7 || 12 <= t <= 15)
    && (13 <= t <= 15 ==> (p.offset + p.size) % TWO_32 <= p.parent.size)
    && (t == 14 ==> p.parent.flags % 4 != 1)
    && (t == 13 ==> p.parent.flags % 4 != 2)
  }

  /** The k-th parameter is the first that fails. */
  ghost predicate FailsAt(op: Operation, i: nat, k: nat, status: Status) {
    && i <= k < 4 && (forall j :: i <= j < k ==> Sound(Nibble(op.paramTypes, j), op.params[j]))
    && if Sound(Nibble(op.paramTypes, k), op.params[k])
       then status == CommsError && AreaOf(Nibble(op.paramTypes, k), op.params[k]) != []
       else status == BadParameters
  }

  /** One parameter: rejected exactly if it is unsound, and failing exactly if its memory cannot be mapped. */
  lemma ParamReports(w: World, tci: Tci, op: Operation, x: MapInput, i: nat)
    requires i < 4
    ensures var status := SetupParam(w, tci, op, x, i).2; var t, p := Nibble(op.paramTypes, i), op.params[i];
      && (status == BadParameters <==> !Sound(t, p))
      && (status == CommsError <==>
            Sound(t, p) && AreaOf(t, p) != []
            && Map(w, AreaOf(t, p)[0].start, AreaOf(t, p)[0].len, x).1 != Ok)
      && (status == Success || status == CommsError || status == BadParameters)
  {
    NibbleIsType(op.paramTypes, i);
  }

  lemma {:induction false} FirstFailure(w: World, tci: Tci, op: Operation, xs: Inputs, i: nat)
    requires i <= 4
    ensures var status := SetupFrom(w, tci, op, xs, i).2;
      if status == Success then forall j :: i <= j < 4 ==> Sound(Nibble(op.paramTypes, j), op.params[j])
      else exists k :: FailsAt(op, i, k, status)
    decreases 4 - i
  {
    if i < 4 {
      var (v, u, status) := SetupParam(w, tci, op, xs[i], i);
      ParamReports(w, tci, op, xs[i], i);
      if status == Success {
        FirstFailure(v, u, op, xs, i + 1);
        var end := SetupFrom(v, u, op, xs, i + 1).2;
        if end != Success {
          var k :| FailsAt(op, i + 1, k, end);
          assert FailsAt(op, i, k, end);
        }
      } else {
        assert FailsAt(op, i, i, status);
      }
    }
  }

  /**
   * What a setup reports: a cancellation in any case, else the first parameter that is unsound or
   * cannot be mapped; and when it does not succeed the operation in the TCI is zeroed.
   */
  lemma SetupReports(w: World, tci: Tci, op: Operation, xs: Inputs, cancelled: bool, accepts: Answers)
    ensures var (t, u, status) := Setup(w, tci, op, xs, cancelled, accepts);
      && (cancelled <==> status == Cancelled)
      && (status == Success ==> forall j :: 0 <= j < 4 ==> Sound(Nibble(op.paramTypes, j), op.params[j]))
      && (status == BadParameters || status == CommsError ==> exists k :: FailsAt(op, 0, k, status))
      && (status != Success ==>
            u.paramTypes == 0 && forall j :: 0 <= j < 4 ==> u.params[j] == Internal(MapInfo(0, 0), 0, 0, 0))
  {
    FirstFailure(w, tci.(paramTypes := 0), op, xs, 0);
  }

  /** The buffers mapped before the first parameter that fails. */
  function MappedBefore(w: World, tci: Tci, op: Operation, xs: Inputs, i: nat): seq<Desc>
    requires i <= 4
    decreases |op.params| - i
  {
    if i == 4 then []
    else
      var (v, u, status) := SetupParam(w, tci, op, xs[i], i);
      if status == Success then AddedBy(op, xs[i], i) + MappedBefore(v, u, op, xs, i + 1) else []
  }

  lemma FailedParamAdds(w: World, tci: Tci, op: Operation, x: MapInput, i: nat)
    requires i < 4 && Agree(w) && Reliable(w, x) && SetupParam(w, tci, op, x, i).2 != Success
    ensures SetupParam(w, tci, op, x, i).0.descs == w.descs
  {
    if !Rejected(op, i) && !IsValue(ParamType(op.paramTypes, i)) && Mapping(op, i) {
      if Map(w, Buffer(op, i), Size(op, i), x).1 == DaemonUnreachable {
        FailedMapLeavesClient(w, Buffer(op, i), Size(op, i), x);
      }
    }
  }

  lemma MoreDescs(w: World, v: World, now: seq<Desc>, more: seq<Desc>)
    requires v == ExtendedBy(w, now)
    ensures v.descs + more == w.descs + (now + more)
  {
    ExtendedDescs(w, now);
  }

  lemma {:induction false} SetupMapsBefore(w: World, tci: Tci, op: Operation, xs: Inputs, i: nat)
    requires i <= 4 && Agree(w) && ReliableFrom(w, tci, op, xs, i)
    ensures SetupFrom(w, tci, op, xs, i).0.descs == w.descs + MappedBefore(w, tci, op, xs, i)
    decreases |op.params| - i
  {
    if i < 4 {
      var (v, u, status) := SetupParam(w, tci, op, xs[i], i);
      if status == Success {
        SetupParamAdds(w, tci, op, xs[i], i);
        SetupMapsBefore(v, u, op, xs, i + 1);
        MoreDescs(w, v, AddedBy(op, xs[i], i), MappedBefore(v, u, op, xs, i + 1));
      } else {
        FailedParamAdds(w, tci, op, xs[i], i);
      }
    }
  }

  /**
   * A setup that fails or is cancelled while the TCI does not hold the answer of a trusted
   * application, as before the first operation: the client keeps every buffer it had mapped.
   */
  lemma NothingUnwoundWithoutAnswer(w: World, tci: Tci, op: Operation, xs: Inputs, cancelled: bool, accepts: Answers)
    requires Agree(w) && ReliableFrom(w, tci.(paramTypes := 0), op, xs, 0) && NotAnswered(tci)
    requires Setup(w, tci, op, xs, cancelled, accepts).2 != Success
    ensures Setup(w, tci, op, xs, cancelled, accepts).0.descs
         == w.descs + MappedBefore(w, tci.(paramTypes := 0), op, xs, 0)
  {
    AnswerStays(w, tci.(paramTypes := 0), op, xs, 0);
    SetupMapsBefore(w, tci.(paramTypes := 0), op, xs, 0);
  }

  // ---------------------------------------------------------------- whose memory is mapped

  /** The type of the i-th parameter, the lowest nibble first. */
  function Nibble(types: nat, i: nat): nat {
    if i == 0 then types % 16 else Nibble(types / 16, i - 1)
  }

  lemma NibbleIsType(types: nat, i: nat)
    requires i < 4
    ensures Nibble(types, i) == ParamType(types, i)
  {
    assert Nibble(types, 1) == types / 16 % 16;
    assert types / 16 / 16 == types / 256 && types / 16 / 16 / 16 == types / 4096;
    assert Nibble(types, 2) == Nibble(types / 16, 1) == types / 16 / 16 % 16;
    assert Nibble(types, 3) == Nibble(types / 16, 2) == Nibble(types / 16 / 16, 1) == types / 16 / 16 / 16 % 16;
  }

  /** Start and length of the caller's memory, in terms of the caller's fields. */
  datatype Area = Area(start: Addr, len: nat)

  /** Temporary references are 5 to 7, the whole reference is 12, partial ones are 13 to 15. */
  function AreaOf(t: nat, p: Parameter): seq<Area> {
    if 5 <= t <= 7 && p.tmpBuffer != 0 && p.tmpSize != 0 then [Area(p.tmpBuffer, p.tmpSize)]
    else if t == 12 && p.parent.size != 0 then [Area(p.parent.buffer, p.parent.size)]
    else if 13 <= t <= 15 && p.size != 0 then [Area(p.parent.buffer + p.offset, p.size)]
    else []
  }

  function Areas(ds: seq<Desc>): seq<Area> {
    if ds == [] then [] else [Area(ds[0].virtAddr, ds[0].len)] + Areas(ds[1..])
  }

  lemma {:induction false} AreasConcat(a: seq<Desc>, b: seq<Desc>)
    ensures Areas(a + b) == Areas(a) + Areas(b)
  {
    if a == [] {
      assert a + b == b;
    } else {
      assert (a + b)[1..] == a[1..] + b;
      AreasConcat(a[1..], b);
    }
  }

  /** The areas of the parameters from i on. */
  function CallersAreas(op: Operation, i: nat): seq<Area>
    requires i <= 4
    decreases 4 - i
  {
    if i == 4 then [] else AreaOf(Nibble(op.paramTypes, i), op.params[i]) + CallersAreas(op, i + 1)
  }

  lemma AddedIsCallers(tci: Tci, op: Operation, x: MapInput, i: nat)
    requires i < 4 && Intact(tci, op, x, i)
    ensures Areas(AddedBy(op, x, i)) == AreaOf(Nibble(op.paramTypes, i), op.params[i])
  {
    NibbleIsType(op.paramTypes, i);
  }

  lemma {:induction false} AddedAreCallers(tci: Tci, op: Operation, xs: Inputs, i: nat)
    requires i <= 4 && forall j :: i <= j < 4 ==> Intact(tci, op, xs[j], j)
    ensures Areas(Added(op, xs, i)) == CallersAreas(op, i)
    decreases 4 - i
  {
    if i < 4 {
      AddedIsCallers(tci, op, xs[i], i);
      AddedAreCallers(tci, op, xs, i + 1);
      AreasConcat(AddedBy(op, xs[i], i), Added(op, xs, i + 1));
    }
  }

  /**
   * A successful setup maps exactly the memory the caller's references are about, in their order: a
   * temporary reference's buffer, the whole of a shared memory, or the part at the offset; nothing
   * for a size of zero and for a null temporary reference.
   */
  lemma SetupMapsCallersMemory(w: World, tci: Tci, op: Operation, xs: Inputs, accepts: Answers)
    requires Agree(w) && ReliableFrom(w, tci.(paramTypes := 0), op, xs, 0)
    requires Setup(w, tci, op, xs, false, accepts).2 == Success
    ensures var after := Setup(w, tci, op, xs, false, accepts).0.descs;
      w.descs <= after && Areas(after[|w.descs|..]) == CallersAreas(op, 0)
  {
    var start := tci.(paramTypes := 0);
    var (v, u, _) := SetupFrom(w, start, op, xs, 0);
    SetUp(w, start, op, xs, u);
    ExtendedDescs(w, Added(op, xs, 0));
    AddedAreCallers(u, op, xs, 0);
    assert v.descs[|w.descs|..] == Added(op, xs, 0);
  }

  /** The caller's values go out with the types VALUE_INPUT and VALUE_INOUT, 1 and 3, and no others. */
  lemma {:induction false} SetupSendsValues(w: World, tci: Tci, op: Operation, xs: Inputs, i: nat)
    requires i <= 4 && SetupFrom(w, tci, op, xs, i).2 == Success
    ensures var u := SetupFrom(w, tci, op, xs, i).1;
      forall j :: 0 <= j < 4 ==>
        var t := Nibble(op.paramTypes, j);
        && u.params[j].a == (if i <= j && (t == 1 || t == 3) then op.params[j].a else tci.params[j].a)
        && u.params[j].b == (if i <= j && (t == 1 || t == 3) then op.params[j].b else tci.params[j].b)
        && u.params[j].outputSize == tci.params[j].outputSize
    decreases 4 - i
  {
    if i < 4 {
      var (v, u, _) := SetupParam(w, tci, op, xs[i], i);
      NibbleIsType(op.paramTypes, i);
      SetupSendsValues(v, u, op, xs, i + 1);
    }
  }

  // ---------------------------------------------------------------- one operation with one buffer

  const ONE_BUFFER := Operation(TEEC_MEMREF_TEMP_INPUT, [
    Parameter(0, 0, 4096, 16, SharedMemory(0, 0, 0), 0, 0), Parameter(0, 0, 0, 0, SharedMemory(0, 0, 0), 0, 0),
    Parameter(0, 0, 0, 0, SharedMemory(0, 0, 0), 0, 0), Parameter(0, 0, 0, 0, SharedMemory(0, 0, 0), 0, 0)])

  const NO_INFO := Internal(MapInfo(0, 0), 0, 0, 0)

  const ZEROED := Tci(0, [NO_INFO, NO_INFO, NO_INFO, NO_INFO], 0, 0)

  const EMPTY := World([], map[], map[])

  /** The kernel registers it as 1, and the secure world maps it at 8192. */
  const MAPPED_AT: Inputs := [MapInput(true, 1, MappedAt(8192)), MapInput(true, 2, NotLocked),
                              MapInput(true, 3, NotLocked), MapInput(true, 4, NotLocked)]

  const MAPPED_BUFFER := Desc(4096, 8192, 16, 1)

  /** A parameter that is not used changes nothing but the type bits. */
  lemma UnusedParam(w: World, tci: Tci, x: MapInput, i: nat)
    requires 1 <= i < 4
    ensures var (v, u, status) := SetupParam(w, tci, ONE_BUFFER, x, i);
      v == w && u == tci.(paramTypes := u.paramTypes) && status == Success
  {
    assert ParamType(TEEC_MEMREF_TEMP_INPUT, i) == 0;
    assert !Rejected(ONE_BUFFER, i);
    assert tci.params[i := tci.params[i]] == tci.params;
  }

  lemma OneBufferSetUp()
    ensures var (v, u, status) := SetupFrom(EMPTY, ZEROED, ONE_BUFFER, MAPPED_AT, 0);
      && status == Success && v == Extended(EMPTY, MAPPED_BUFFER)
      && u == ZEROED.(paramTypes := u.paramTypes, params := ZEROED.params[0 := NO_INFO.(info := MapInfo(8192, 16))])
  {
    var (v, u, status) := SetupParam(EMPTY, ZEROED, ONE_BUFFER, MAPPED_AT[0], 0);
    assert Map(EMPTY, 4096, 16, MAPPED_AT[0]).1 == Ok;
    assert v.descs == [MAPPED_BUFFER] && v == Extended(EMPTY, MAPPED_BUFFER);
    UnusedParam(v, u, MAPPED_AT[1], 1);
    var u1 := SetupParam(v, u, ONE_BUFFER, MAPPED_AT[1], 1).1;
    UnusedParam(v, u1, MAPPED_AT[2], 2);
    var u2 := SetupParam(v, u1, ONE_BUFFER, MAPPED_AT[2], 2).1;
    UnusedParam(v, u2, MAPPED_AT[3], 3);
    var u3 := SetupParam(v, u2, ONE_BUFFER, MAPPED_AT[3], 3).1;
    assert SetupFrom(v, u3, ONE_BUFFER, MAPPED_AT, 4) == (v, u3, Success);
    assert SetupFrom(v, u2, ONE_BUFFER, MAPPED_AT, 3) == (v, u3, Success);
    assert SetupFrom(v, u1, ONE_BUFFER, MAPPED_AT, 2) == (v, u3, Success);
    assert SetupFrom(v, u, ONE_BUFFER, MAPPED_AT, 1) == (v, u3, Success);
  }

  /** The trusted application answers, the unmap is refused, and the buffer stays mapped. */
  lemma RefusedUnmapStays()
    ensures var none: Answers := [false, false, false, false];
      var (v, u, status) := Setup(EMPTY, ZEROED, ONE_BUFFER, MAPPED_AT, false, none);
      status == Success
      && Unwind(v, u.(returnOrigin := TEEC_ORIGIN_TRUSTED_APP), ONE_BUFFER, none).descs == [MAPPED_BUFFER]
  {
    OneBufferSetUp();
    var none: Answers := [false, false, false, false];
    var (v, u, _) := Setup(EMPTY, ZEROED, ONE_BUFFER, MAPPED_AT, false, none);
    var answer := u.(returnOrigin := TEEC_ORIGIN_TRUSTED_APP);
    assert ZEROED.(paramTypes := 0) == ZEROED;
    assert UnwindFrom(v, answer, ONE_BUFFER, none, 4) == v;
    assert UnwindFrom(v, answer, ONE_BUFFER, none, 3) == v;
    assert UnwindFrom(v, answer, ONE_BUFFER, none, 2) == v;
    assert UnwindFrom(v, answer, ONE_BUFFER, none, 1) == v;
  }

  /** The first operation of a session is cancelled, and the buffer stays mapped. */
  lemma FirstCancelStays(accepts: Answers)
    ensures var (v, _, status) := Setup(EMPTY, ZEROED, ONE_BUFFER, MAPPED_AT, true, accepts);
      status == Cancelled && v.descs == [MAPPED_BUFFER]
  {
    OneBufferSetUp();
    assert ZEROED.(paramTypes := 0) == ZEROED;
  }

  // ---------------------------------------------------------------- the types that are sent

  /** Flags that TEEC_RegisterSharedMemory and TEEC_AllocateSharedMemory let through. */
  predicate Registered(op: Operation, i: nat)
    requires i < 4
  {
    ParamType(op.paramTypes, i) == TEEC_MEMREF_WHOLE ==> 1 <= op.params[i].parent.flags <= 3
  }

  /** Whole and partial references are sent as the temporary references with the same data flow. */
  lemma SentTypeIsSmall(op: Operation, i: nat)
    requires i < 4 && !Rejected(op, i) && Registered(op, i)
    ensures SentType(op, i) < 8 && SentType(op, i) != 4
    ensures var t := ParamType(op.paramTypes, i);
      SentType(op, i) == if t == TEEC_MEMREF_WHOLE then 4 + op.params[i].parent.flags else t % 8
  {
    var t := ParamType(op.paramTypes, i);
    if t == TEEC_MEMREF_WHOLE {
      OrFour(op.params[i].parent.flags);
    } else if IsPartial(t) {
      AndSeven(t);
    }
  }

  lemma OrFour(f: nat)
    requires f < 4
    ensures Or(f, 4) == f + 4
  {
    assert Or(f / 4, 1) == 1;
    assert Or(f / 2, 2) == 2 * Or(f / 4, 1) + f / 2 % 2;
  }

  lemma AndSeven(t: nat)
    requires 13 <= t <= 15
    ensures And(t, 7) == t - 8
  {
    assert And(t / 8, 0) == 0;
    assert And(t / 4, 1) == 2 * And(t / 8, 0) + t / 4 % 2;
    assert And(t / 2, 3) == 2 * And(t / 4, 1) + t / 2 % 2;
  }

  /** The types of the parameters below i, packed. */
  function Packed(op: Operation, i: nat): nat
    requires i <= 4
  {
    if i == 0 then 0 else Packed(op, i - 1) + Shl(SentType(op, i - 1), 4 * (i - 1))
  }

  lemma ShlBounds(a: nat, k: nat)
    ensures a < 8 ==> Shl(a, k) + Pow2(k) <= 8 * Pow2(k)
    ensures Pow2(k + 4) == 16 * Pow2(k)
  {
    if k > 0 { ShlBounds(a, k - 1); }
    assert Pow2(k + 4) == 2 * Pow2(k + 3) == 4 * Pow2(k + 2) == 8 * Pow2(k + 1);
  }

  lemma {:induction false} TypesArePacked(w: World, tci: Tci, op: Operation, xs: Inputs, i: nat)
    requires i <= 4 && SetupFrom(w, tci, op, xs, i).2 == Success
    requires forall j :: i <= j < 4 ==> Registered(op, j)
    requires tci.paramTypes == Packed(op, i) < Pow2(4 * i)
    ensures SetupFrom(w, tci, op, xs, i).1.paramTypes == Packed(op, 4)
    decreases |op.params| - i
  {
    if i < 4 {
      var (v, u, _) := SetupParam(w, tci, op, xs[i], i);
      SentTypeIsSmall(op, i);
      OrAbove(tci.paramTypes, SentType(op, i), 4 * i);
      ShlBounds(SentType(op, i), 4 * i);
      TypesArePacked(v, u, op, xs, i + 1);
    }
  }

  lemma ShlValues(a: nat)
    ensures Shl(a, 0) == a && Shl(a, 4) == 16 * a && Shl(a, 8) == 256 * a && Shl(a, 12) == 4096 * a
  {
    assert Shl(a, 4) == 2 * Shl(a, 3) == 4 * Shl(a, 2) == 8 * Shl(a, 1);
    assert Shl(a, 8) == 2 * Shl(a, 7) == 4 * Shl(a, 6) == 8 * Shl(a, 5) == 16 * Shl(a, 4);
    assert Shl(a, 12) == 2 * Shl(a, 11) == 4 * Shl(a, 10) == 8 * Shl(a, 9) == 16 * Shl(a, 8);
  }

  lemma Unpacked(a: nat, b: nat, c: nat, d: nat)
    requires a < 8 && b < 8 && c < 8 && d < 8
    ensures var t := a + 16 * b + 256 * c + 4096 * d;
      ParamType(t, 0) == a && ParamType(t, 1) == b && ParamType(t, 2) == c && ParamType(t, 3) == d
  {
    var t := a + 16 * b + 256 * c + 4096 * d;
    LowNibble(a, b + 16 * c + 256 * d);
    LowNibble(b, c + 16 * d);
    LowNibble(c, d);
    assert t / 256 == t / 16 / 16;
    assert t / 4096 == t / 256 / 16;
  }

  lemma LowNibble(low: nat, rest: nat)
    requires low < 16
    ensures (low + 16 * rest) % 16 == low && (low + 16 * rest) / 16 == rest
  {}

  lemma PackedValue(op: Operation)
    ensures Packed(op, 4)
         == SentType(op, 0) + 16 * SentType(op, 1) + 256 * SentType(op, 2) + 4096 * SentType(op, 3)
  {
    ShlValues(SentType(op, 0));
    ShlValues(SentType(op, 1));
    ShlValues(SentType(op, 2));
    ShlValues(SentType(op, 3));
    assert Packed(op, 1) == Packed(op, 0) + Shl(SentType(op, 0), 0);
    assert Packed(op, 2) == Packed(op, 1) + Shl(SentType(op, 1), 4);
    assert Packed(op, 3) == Packed(op, 2) + Shl(SentType(op, 2), 8);
    assert Packed(op, 4) == Packed(op, 3) + Shl(SentType(op, 3), 12);
  }

  lemma PackedTypes(op: Operation)
    requires forall j :: 0 <= j < 4 ==> Registered(op, j) && !Rejected(op, j)
    ensures forall i :: 0 <= i < 4 ==> ParamType(Packed(op, 4), i) == SentType(op, i) < 8
  {
    SentTypeIsSmall(op, 0);
    SentTypeIsSmall(op, 1);
    SentTypeIsSmall(op, 2);
    SentTypeIsSmall(op, 3);
    PackedValue(op);
    Unpacked(SentType(op, 0), SentType(op, 1), SentType(op, 2), SentType(op, 3));
  }

  /** After a successful setup each type in the TCI is the one to be sent, and is below 8. */
  lemma SentTypes(w: World, tci: Tci, op: Operation, xs: Inputs, accepts: Answers, i: nat)
    requires i < 4 && Setup(w, tci, op, xs, false, accepts).2 == Success
    requires forall j :: 0 <= j < 4 ==> Registered(op, j)
    ensures ParamType(Setup(w, tci, op, xs, false, accepts).1.paramTypes, i) == SentType(op, i) < 8
  {
    NothingRejected(w, tci.(paramTypes := 0), op, xs, 0);
    TypesArePacked(w, tci.(paramTypes := 0), op, xs, 0);
    PackedTypes(op);
  }

  lemma {:induction false} NothingRejected(w: World, tci: Tci, op: Operation, xs: Inputs, i: nat)
    requires i <= 4 && SetupFrom(w, tci, op, xs, i).2 == Success
    ensures forall j :: i <= j < 4 ==> !Rejected(op, j)
    decreases |op.params| - i
  {
    if i < 4 {
      var (v, u, _) := SetupParam(w, tci, op, xs[i], i);
      NothingRejected(v, u, op, xs, i + 1);
    }
  }

  // ---------------------------------------------------------------- in place

  /** What unwinding copies back to the caller: values and sizes of what the call may write. */
  function CopiedBack(t: nat, p: Parameter, imp: Internal): Parameter {
    if t == TEEC_VALUE_OUTPUT || t == TEEC_VALUE_INOUT then p.(a := imp.a, b := imp.b)
    else if IsTemp(t) && t != TEEC_MEMREF_TEMP_INPUT then p.(tmpSize := imp.outputSize)
    else if t == TEEC_MEMREF_WHOLE && p.parent.flags != TEEC_MEM_INPUT then p.(size := imp.outputSize)
    else if IsPartial(t) && t != TEEC_MEMREF_PARTIAL_INPUT then p.(size := imp.outputSize)
    else p
  }

  /**
   * What the caller finds in a parameter afterwards: the values for VALUE_OUTPUT and VALUE_INOUT, 2
   * and 3, the size for references that may be written, and everything else as it was.
   */
  lemma CallerGetsBack(t: nat, p: Parameter, imp: Internal)
    ensures var q := CopiedBack(t, p, imp);
      && q.a == (if t == 2 || t == 3 then imp.a else p.a)
      && q.b == (if t == 2 || t == 3 then imp.b else p.b)
      && q.tmpSize == (if t == 6 || t == 7 then imp.outputSize else p.tmpSize)
      && q.size == (if (t == 12 && p.parent.flags != 1) || t == 14 || t == 15
                    then imp.outputSize else p.size)
      && q.tmpBuffer == p.tmpBuffer && q.parent == p.parent && q.offset == p.offset
  {}

  /** The client side of one session while an operation is in progress. */
  class OperationRunner {
    var world: World
    var tci: Tci
    var params: Parameters

    constructor (w: World, t: Tci, p: Parameters)
      ensures world == w && tci == t && params == p
    {
      world, tci, params := w, t, p;
    }

    method McMap(buf: Addr, len: nat, x: MapInput) returns (code: Code, info: MapInfo)
      modifies this`world
      ensures (world, code, info) == Map(old(world), buf, len, x)
    {
      info := MapInfo(0, 0);
      if buf == 0 { return NullPointer, info; }
      var at := IndexOf(world.descs, buf);
      if at < |world.descs| { return AlreadyMapped, info; }
      if !x.registered { return KernelError, info; }
      var before := world.descs;
      world := world.(descs := before + [Desc(buf, 0, len, x.handle)],
                      kernel := world.kernel[x.handle := Wsm(true, 0)]);
      world := DaemonMaps(world, x.handle, len, x.daemon);
      if !x.daemon.MappedAt? {
        world := RemoveBulkBuf(world, buf).0;
        return DaemonUnreachable, info;
      }
      world := world.(descs := before + [Desc(buf, x.daemon.sVirtualAddr, len, x.handle)]);
      return Ok, MapInfo(x.daemon.sVirtualAddr, len);
    }

    method SetupOne(paramTypes: nat, x: MapInput, i: nat) returns (status: Status)
      requires i < 4
      modifies this`world, this`tci
      ensures (world, tci, status) == SetupParam(old(world), old(tci), Operation(paramTypes, params), x, i)
    {
      var op := Operation(paramTypes, params);
      if Rejected(op, i) { return BadParameters; }
      var t, imp := ParamType(paramTypes, i), tci.params[i];
      status := Success;
      if t == TEEC_VALUE_INPUT || t == TEEC_VALUE_INOUT {
        imp := imp.(a := params[i].a, b := params[i].b);
      } else if !IsValue(t) {
        imp := imp.(info := imp.info.(sVirtualLen := 0));
        if Mapping(op, i) {
          var code, info := McMap(Buffer(op, i), Size(op, i), x);
          if code == Ok { imp := imp.(info := info); } else { status := CommsError; }
        }
      }
      tci := tci.(params := tci.params[i := imp],
                  paramTypes := Or(tci.paramTypes, Shl(SentType(op, i), 4 * i)));
    }

    method SetupOperation(paramTypes: nat, xs: Inputs, cancelled: bool, accepts: Answers) returns (status: Status)
      modifies this
      ensures (world, tci, status)
           == Setup(old(world), old(tci), Operation(paramTypes, old(params)), xs, cancelled, accepts)
      ensures params == old(params)
    {
      tci := tci.(paramTypes := 0);
      status := Success;
      ghost var op, start := Operation(paramTypes, params), SetupFrom(world, tci, Operation(paramTypes, params), xs, 0);
      var i := 0;
      while i < 4 && status == Success
        invariant 0 <= i <= 4 && params == old(params)
        invariant if status == Success then start == SetupFrom(world, tci, op, xs, i) else start == (world, tci, status)
        decreases 4 - i, if status == Success then 1 else 0
      {
        status := SetupOne(paramTypes, xs[i], i);
        i := if status == Success then i + 1 else i;
      }
      if cancelled { status := Cancelled; }
      if status != Success {
        if !NotAnswered(tci) { UnmapAll(paramTypes, accepts, false); }
        tci := Cleared(tci);
      }
    }

    /** Unmaps every parameter that is mapped, and copies results back when asked to. */
    method UnmapAll(paramTypes: nat, accepts: Answers, copyValues: bool)
      modifies this`world, this`params
      ensures world == UnwindFrom(old(world), tci, Operation(paramTypes, old(params)), accepts, 0)
      ensures !copyValues ==> params == old(params)
      ensures copyValues ==> forall i :: 0 <= i < 4 ==>
        params[i] == CopiedBack(ParamType(paramTypes, i), old(params)[i], tci.params[i])
    {
      ghost var op := Operation(paramTypes, params);
      var i := 0;
      while i < 4
        invariant 0 <= i <= 4
        invariant UnwindFrom(old(world), tci, op, accepts, 0) == UnwindFrom(world, tci, op, accepts, i)
        invariant !copyValues ==> params == op.params
        invariant forall k :: i <= k < 4 ==> params[k] == op.params[k]
        invariant copyValues ==> forall k :: 0 <= k < i ==>
          params[k] == CopiedBack(ParamType(paramTypes, k), op.params[k], tci.params[k])
      {
        if copyValues {
          params := params[i := CopiedBack(ParamType(paramTypes, i), params[i], tci.params[i])];
        }
        BufferOfCopy(op, Operation(paramTypes, params), i);
        world := UnwindParam(world, tci, Operation(paramTypes, params), accepts[i], i);
        i := i + 1;
      }
    }

    method UnwindOperation(paramTypes: nat, accepts: Answers, copyValues: bool)
      modifies this`world, this`params
      ensures world == Unwind(old(world), tci, Operation(paramTypes, old(params)), accepts)
      ensures NotAnswered(tci) || !copyValues ==> params == old(params)
      ensures !NotAnswered(tci) && copyValues ==> forall i :: 0 <= i < 4 ==>
        params[i] == CopiedBack(ParamType(paramTypes, i), old(params)[i], tci.params[i])
    {
      if !NotAnswered(tci) { UnmapAll(paramTypes, accepts, copyValues); }
    }
  }

  /** Copying results back does not change which buffer a parameter stands for. */
  lemma BufferOfCopy(op: Operation, copied: Operation, i: nat)
    requires i < 4 && copied.paramTypes == op.paramTypes
    requires copied.params[i].tmpBuffer == op.params[i].tmpBuffer
    requires copied.params[i].parent == op.params[i].parent && copied.params[i].offset == op.params[i].offset
    ensures Buffer(copied, i) == Buffer(op, i)
  {}
}
