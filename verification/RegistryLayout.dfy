/**
 * Root and service provider containers as structures (mcContainer.h) and as the bytes of their
 * files, and what deleting the root does in terms of the structures.
 */
module RegistryLayout {
  import opened Common
  import opened RegistryPaths
  import opened Registry
  import SecureObject

  /** Four bytes, the lowest first. */
  function WordBytes(n: Spid): (b: seq<Byte>)
    ensures |b| == 4
  {
    [n % 256, n / 256 % 256, n / 256 / 256 % 256, n / 256 / 256 / 256 % 256]
  }

  function Words(ns: seq<Spid>): (b: seq<Byte>)
    ensures |b| == 4 * |ns|
  {
    if ns == [] then [] else WordBytes(ns[0]) + Words(ns[1..])
  }

  function Uuids(us: seq<Uuid>): (b: seq<Byte>)
    ensures |b| == 16 * |us|
  {
    if us == [] then [] else us[0] + Uuids(us[1..])
  }

  type Bytes16 = s: seq<Byte> | |s| == 16 witness seq(16, _ => 0)
  type Bytes32 = s: seq<Byte> | |s| == 32 witness seq(32, _ => 0)
  type Header = s: seq<Byte> | |s| == 44 witness seq(44, _ => 0)
  type HashAndPad = s: seq<Byte> | |s| == 48 witness seq(48, _ => 0)
  type SpChildList = s: seq<Spid> | |s| == MC_CONT_CHILDREN_COUNT witness seq(16, _ => 0)
  const NO_CHILDREN: seq<Uuid> := seq(MC_CONT_CHILDREN_COUNT, _ => MC_UUID_FREE)

  type UuidChildList = s: seq<Uuid> | |s| == MC_CONT_CHILDREN_COUNT witness NO_CHILDREN

  /** mcSoRootCont_t: the secure object around mcRootCont_t. */
  datatype RootContainer = RootContainer(
    soHeader: Header, kind: Spid, version: Spid, attribs: Spid, suid: Bytes16, rootid: Spid,
    children: SpChildList, co: Bytes32, hashAndPad: HashAndPad)

  /** mcSoSpCont_t. */
  datatype SpContainer = SpContainer(
    soHeader: Header, kind: Spid, version: Spid, attribs: Spid, spid: Spid,
    children: UuidChildList, co: Bytes32, hashAndPad: HashAndPad)

  function RootFront(r: RootContainer): (b: seq<Byte>)
    ensures |b| == 76
  {
    r.soHeader + WordBytes(r.kind) + WordBytes(r.version) + WordBytes(r.attribs) + r.suid + WordBytes(r.rootid)
  }

  function RootBytes(r: RootContainer): (b: seq<Byte>)
    ensures |b| == 220
  {
    RootFront(r) + Words(r.children) + (r.co + r.hashAndPad)
  }

  function SpFront(p: SpContainer): (b: seq<Byte>)
    ensures |b| == 60
  {
    p.soHeader + WordBytes(p.kind) + WordBytes(p.version) + WordBytes(p.attribs) + WordBytes(p.spid)
  }

  function SpBytes(p: SpContainer): (b: seq<Byte>)
    ensures |b| == 396
  {
    SpFront(p) + Uuids(p.children) + (p.co + p.hashAndPad)
  }

  // ---------------------------------------------------------------- reading gives the fields back

  lemma WordReadsBack(n: Spid)
    ensures WordAt(WordBytes(n), 0) == n
  {
    assert n == n % 256 + 256 * (n / 256);
    assert n / 256 == n / 256 % 256 + 256 * (n / 256 / 256);
    assert n / 256 / 256 == n / 256 / 256 % 256 + 256 * (n / 256 / 256 / 256);
    assert n / 256 / 256 / 256 < 256;
  }

  lemma {:induction false} WordsAt(ns: seq<Spid>, i: nat)
    requires i < |ns|
    ensures Words(ns)[4 * i..4 * i + 4] == WordBytes(ns[i])
  {
    if i > 0 {
      WordsAt(ns[1..], i - 1);
      assert Words(ns)[4 * i..4 * i + 4] == Words(ns[1..])[4 * (i - 1)..4 * (i - 1) + 4];
    }
  }

  lemma {:induction false} UuidsAt(us: seq<Uuid>, i: nat)
    requires i < |us|
    ensures Uuids(us)[16 * i..16 * i + 16] == us[i]
  {
    if i > 0 {
      UuidsAt(us[1..], i - 1);
      assert Uuids(us)[16 * i..16 * i + 16] == Uuids(us[1..])[16 * (i - 1)..16 * (i - 1) + 16];
    }
  }

  lemma SliceOfMiddle(a: seq<Byte>, b: seq<Byte>, c: seq<Byte>, i: nat, n: nat)
    requires i + n <= |b|
    ensures (a + b + c)[|a| + i..|a| + i + n] == b[i..i + n]
  {}

  /** Reading the children of a root container's file gives the service providers it lists. */
  lemma RootReadsBack(r: RootContainer)
    ensures |RootBytes(r)| == ROOT_SIZE && RootChildren(RootBytes(r)) == r.children
  {
    var data := RootBytes(r);
    forall i | 0 <= i < 16 ensures RootChildren(data)[i] == r.children[i] { RootChildReadsBack(r, i); }
  }

  lemma RootChildReadsBack(r: RootContainer, i: nat)
    requires i < 16
    ensures RootChildren(RootBytes(r))[i] == r.children[i]
  {
    var data, at := RootBytes(r), 76 + 4 * i;
    SliceOfMiddle(RootFront(r), Words(r.children), r.co + r.hashAndPad, 4 * i, 4);
    WordsAt(r.children, i);
    WordReadsBack(r.children[i]);
    assert data[at..at + 4] == WordBytes(r.children[i]);
    SameWord(data, at);
  }

  lemma SameWord(data: seq<Byte>, at: nat)
    requires at + 4 <= |data|
    ensures WordAt(data, at) == WordAt(data[at..at + 4], 0)
  {}

  /** And of a service provider's container the trustlets it lists. */
  lemma SpReadsBack(p: SpContainer)
    ensures |SpBytes(p)| == SP_SIZE && SpChildren(SpBytes(p)) == p.children
  {
    var data := SpBytes(p);
    forall i | 0 <= i < 16 ensures SpChildren(data)[i] == p.children[i] {
      SliceOfMiddle(SpFront(p), Uuids(p.children), p.co + p.hashAndPad, 16 * i, 16);
      UuidsAt(p.children, i);
    }
  }

  // ---------------------------------------------------------------- the cascade on structures

  /** The registry holds this root container and, for each service provider it lists, its container. */
  ghost predicate Stores(fs: Fs, r: RootContainer, providers: map<Spid, SpContainer>) {
    && Lookup(fs, Root) == Some(RootBytes(r))
    && (forall i :: 0 <= i < 16 && r.children[i] != 0xFFFF_FFFF ==>
          r.children[i] in providers && Lookup(fs, Sp(r.children[i])) == Some(SpBytes(providers[r.children[i]])))
  }

  predicate ListsProvider(r: RootContainer, spid: Spid) { spid in r.children && spid != 0xFFFF_FFFF }

  predicate ListsTrustlet(p: SpContainer, uuid: Uuid) { uuid in p.children && exists b :: b in uuid && b != 255 }

  /** The root, its service providers, and their trustlets. */
  predicate Below(r: RootContainer, providers: map<Spid, SpContainer>, k: Key) {
    match k
    case Root => true
    case Sp(spid) => ListsProvider(r, spid)
    case Tl(uuid, spid) => ListsProvider(r, spid) && spid in providers && ListsTrustlet(providers[spid], uuid)
  }

  lemma FreeUuid(uuid: Uuid)
    ensures uuid != MC_UUID_FREE <==> exists b :: b in uuid && b != 255
  {
    if forall b :: b in uuid ==> b == 255 {
      forall i | 0 <= i < 16 ensures uuid[i] == MC_UUID_FREE[i] { assert uuid[i] in uuid; }
    } else {
      var i :| 0 <= i < 16 && uuid[i] != 255;
      assert uuid[i] != MC_UUID_FREE[i];
    }
  }

  lemma DoomedOnFields(fs: Fs, spid: Spid, p: SpContainer, k: Key)
    requires Lookup(fs, Sp(spid)) == Some(SpBytes(p))
    ensures Doomed(fs, spid, k) <==> k == Sp(spid) || (k.Tl? && k.spid == spid && ListsTrustlet(p, k.uuid))
  {
    SpReadsBack(p);
    assert SpBytes(p)[..SP_SIZE] == SpBytes(p);
    if k.Tl? { FreeUuid(k.uuid); }
  }

  lemma BelowIsDoomed(fs: Fs, r: RootContainer, providers: map<Spid, SpContainer>, k: Key)
    requires Stores(fs, r, providers)
    ensures FullRoot(fs) && Listed(fs) == r.children
    ensures Below(r, providers, k) <==> k == Root || DoomedBy(fs, r.children, k)
  {
    RootReadsBack(r);
    assert RootBytes(r)[..ROOT_SIZE] == RootBytes(r);
    forall i | 0 <= i < 16 && r.children[i] != MC_SPID_FREE
      ensures Doomed(fs, r.children[i], k) <==>
        k == Sp(r.children[i]) || (k.Tl? && k.spid == r.children[i] && ListsTrustlet(providers[r.children[i]], k.uuid))
    {
      DoomedOnFields(fs, r.children[i], providers[r.children[i]], k);
    }
    if k != Root && Below(r, providers, k) {
      var i :| 0 <= i < 16 && r.children[i] == k.spid;
      assert Doomed(fs, r.children[i], k);
    }
  }

  /**
   * Deleting the root of such a registry: a service provider or trustlet that is not below the root
   * is untouched, and on success everything that is, is gone.
   */
  lemma CascadeOnFields(fs: Fs, r: RootContainer, providers: map<Spid, SpContainer>, scan: Scan, k: Key)
    requires Stores(fs, r, providers)
    ensures var (t, code) := CleanupRoot(fs, scan);
      && (!Below(r, providers, k) ==> Lookup(t, k) == Lookup(fs, k))
      && (code == Ok && Below(r, providers, k) ==> Lookup(t, k).None?)
  {
    BelowIsDoomed(fs, r, providers, k);
    RootCleaned(fs, scan, k);
  }

  /** Deleting one service provider. */
  lemma ProviderOnFields(fs: Fs, spid: Spid, p: SpContainer, scan: Scan, k: Key)
    requires Lookup(fs, Sp(spid)) == Some(SpBytes(p))
    ensures var (t, code) := CleanupSp(fs, spid, scan);
      var below := k == Sp(spid) || (k.Tl? && k.spid == spid && ListsTrustlet(p, k.uuid));
      && (!below ==> Lookup(t, k) == Lookup(fs, k))
      && (code == Ok && below ==> Lookup(t, k).None?)
  {
    DoomedOnFields(fs, spid, p, k);
    SpCleaned(fs, spid, scan, k);
  }

  // ---------------------------------------------------------------- when deleting succeeds

  /** Everything can be removed, and no directory holds a hidden file. */
  ghost predicate Tidy(fs: Fs) {
    && fs.stuck == {}
    && (forall p, d :: p in fs.files && d in fs.dirs && Within(p, d) ==> p[|d| + 1] != '.')
  }

  /** Nothing new appears. */
  ghost predicate Shrinks(fs: Fs, t: Fs) {
    t.stuck == fs.stuck && t.files.Keys <= fs.files.Keys && t.dirs <= fs.dirs
  }

  lemma TidyShrinks(fs: Fs, t: Fs)
    requires Tidy(fs) && Shrinks(fs, t)
    ensures Tidy(t)
  {}

  lemma TidyDirGoes(fs: Fs, dir: string)
    requires Tidy(fs)
    ensures RemoveDir(fs, dir).1 && Shrinks(fs, RemoveDir(fs, dir).0)
  {}

  lemma BinaryShrinks(fs: Fs, uuid: Uuid, spid: Spid, scan: Scan)
    ensures Shrinks(fs, RemoveBinary(fs, uuid, spid, scan))
  {}

  /** A trustlet whose container is there is deleted. */
  lemma TidyTrustletGoes(fs: Fs, uuid: Uuid, spid: Spid, scan: Scan)
    requires Tidy(fs) && Lookup(fs, Tl(uuid, spid)).Some?
    ensures CleanupTrustlet(fs, uuid, spid, scan).1 == Ok && Tidy(CleanupTrustlet(fs, uuid, spid, scan).0)
  {
    var noData := RemoveDir(fs, TlDataPath(uuid)).0;
    TidyDirGoes(fs, TlDataPath(uuid));
    RemoveDirKeeps(fs, Hex(uuid), Tl(uuid, spid));
    BinaryShrinks(noData, uuid, spid, scan);
    RemoveBinaryKeeps(noData, uuid, spid, scan, Tl(uuid, spid));
    TidyShrinks(fs, CleanupTrustlet(fs, uuid, spid, scan).0);
  }

  /** Nobody is listed twice, except as free. */
  ghost predicate DistinctUuids(us: seq<Uuid>) {
    forall i, j :: 0 <= i < j < |us| && us[i] != MC_UUID_FREE ==> us[i] != us[j]
  }

  ghost predicate DistinctSpids(ns: seq<Spid>) {
    forall i, j :: 0 <= i < j < |ns| && ns[i] != MC_SPID_FREE ==> ns[i] != ns[j]
  }

  ghost predicate AllThere(fs: Fs, spid: Spid, us: seq<Uuid>) {
    forall i :: 0 <= i < |us| && us[i] != MC_UUID_FREE ==> Lookup(fs, Tl(us[i], spid)).Some?
  }

  lemma OthersStayThere(fs: Fs, spid: Spid, us: seq<Uuid>, scan: Scan)
    requires us != [] && us[0] != MC_UUID_FREE && DistinctUuids(us) && AllThere(fs, spid, us)
    ensures AllThere(CleanupTrustlet(fs, us[0], spid, scan).0, spid, us[1..])
  {
    var t := CleanupTrustlet(fs, us[0], spid, scan).0;
    forall i | 0 <= i < |us[1..]| && us[1..][i] != MC_UUID_FREE ensures Lookup(t, Tl(us[1..][i], spid)).Some? {
      assert us[1..][i] == us[i + 1];
      TrustletCleaned(fs, us[0], spid, scan, Tl(us[i + 1], spid));
    }
  }

  lemma TailThere(fs: Fs, spid: Spid, us: seq<Uuid>)
    requires us != [] && DistinctUuids(us) && AllThere(fs, spid, us)
    ensures DistinctUuids(us[1..]) && AllThere(fs, spid, us[1..])
  {}

  /** The loop goes on behind its first child. */
  lemma FirstGoes(fs: Fs, spid: Spid, us: seq<Uuid>, scan: Scan, t: Fs)
    requires us != []
    requires if us[0] == MC_UUID_FREE then t == fs else CleanupTrustlet(fs, us[0], spid, scan) == (t, Ok)
    ensures CleanupTrustlets(fs, spid, us, scan) == CleanupTrustlets(t, spid, us[1..], scan)
  {
    FreeIsComparedWhole(us[0], MC_UUID_FREE);
  }

  lemma {:induction false} TidyTrustletsGo(fs: Fs, spid: Spid, us: seq<Uuid>, scan: Scan)
    requires Tidy(fs) && DistinctUuids(us) && AllThere(fs, spid, us)
    ensures CleanupTrustlets(fs, spid, us, scan).1 == Ok && Tidy(CleanupTrustlets(fs, spid, us, scan).0)
    decreases |us|
  {
    if us == [] {
    } else if us[0] == MC_UUID_FREE {
      TailThere(fs, spid, us);
      FirstGoes(fs, spid, us, scan, fs);
      TidyTrustletsGo(fs, spid, us[1..], scan);
    } else {
      var t := CleanupTrustlet(fs, us[0], spid, scan).0;
      TidyTrustletGoes(fs, us[0], spid, scan);
      TailThere(fs, spid, us);
      OthersStayThere(fs, spid, us, scan);
      FirstGoes(fs, spid, us, scan, t);
      TidyTrustletsGo(t, spid, us[1..], scan);
    }
  }

  /** The container of a service provider and those of the trustlets it lists are there. */
  ghost predicate Whole(fs: Fs, spid: Spid, p: SpContainer) {
    && spid != 0 && Lookup(fs, Sp(spid)) == Some(SpBytes(p))
    && DistinctUuids(p.children) && AllThere(fs, spid, p.children)
  }

  lemma TidyProviderGoes(fs: Fs, spid: Spid, p: SpContainer, scan: Scan)
    requires Tidy(fs) && Whole(fs, spid, p)
    ensures CleanupSp(fs, spid, scan).1 == Ok && Tidy(CleanupSp(fs, spid, scan).0)
  {
    SpReadsBack(p);
    assert SpBytes(p)[..SP_SIZE] == SpBytes(p);
    assert Read(fs, Sp(spid), Some(SP_SIZE)) == Contents(SpBytes(p));
    TidyTrustletsGo(fs, spid, p.children, scan);
    var t := CleanupTrustlets(fs, spid, p.children, scan).0;
    TrustletsCleaned(fs, spid, p.children, scan, Sp(spid));
    TidySpGoes(t, spid);
  }

  lemma TidySpGoes(fs: Fs, spid: Spid)
    requires Tidy(fs) && Lookup(fs, Sp(spid)).Some?
    ensures RemoveSp(fs, spid).1 == Ok && Tidy(RemoveSp(fs, spid).0)
  {
    TidyDirGoes(fs, SpDataPath(spid));
    RemoveDirKeeps(fs, Reversed(spid, 8), Sp(spid));
    TidyShrinks(fs, RemoveSp(fs, spid).0);
  }

  /** Deleting one service provider leaves another one whole. */
  lemma OtherStaysWhole(fs: Fs, spid: Spid, p: SpContainer, other: Spid, q: SpContainer, scan: Scan)
    requires Whole(fs, spid, p) && Whole(fs, other, q) && other != spid
    ensures Whole(CleanupSp(fs, spid, scan).0, other, q)
  {
    ProviderOnFields(fs, spid, p, scan, Sp(other));
    forall i | 0 <= i < 16 && q.children[i] != MC_UUID_FREE
      ensures Lookup(CleanupSp(fs, spid, scan).0, Tl(q.children[i], other)).Some?
    {
      ProviderOnFields(fs, spid, p, scan, Tl(q.children[i], other));
    }
  }

  ghost predicate AllWhole(fs: Fs, ns: seq<Spid>, providers: map<Spid, SpContainer>) {
    forall i :: 0 <= i < |ns| && ns[i] != MC_SPID_FREE ==> ns[i] in providers && Whole(fs, ns[i], providers[ns[i]])
  }

  lemma {:induction false} TidyProvidersGo(fs: Fs, ns: seq<Spid>, providers: map<Spid, SpContainer>, scan: Scan)
    requires Tidy(fs) && DistinctSpids(ns) && AllWhole(fs, ns, providers)
    ensures CleanupSps(fs, ns, scan).1 == Ok && Tidy(CleanupSps(fs, ns, scan).0)
    decreases |ns|
  {
    if ns != [] {
      if ns[0] == MC_SPID_FREE {
        TidyProvidersGo(fs, ns[1..], providers, scan);
      } else {
        var t := CleanupSp(fs, ns[0], scan).0;
        TidyProviderGoes(fs, ns[0], providers[ns[0]], scan);
        forall i | 0 <= i < |ns[1..]| && ns[1..][i] != MC_SPID_FREE
          ensures ns[1..][i] in providers && Whole(t, ns[1..][i], providers[ns[1..][i]])
        {
          assert ns[1..][i] == ns[i + 1];
          OtherStaysWhole(fs, ns[0], providers[ns[0]], ns[i + 1], providers[ns[i + 1]], scan);
        }
        TidyProvidersGo(t, ns[1..], providers, scan);
      }
    }
  }

  /**
   * Deleting the root of a registry in which everything listed is there, once, and can be removed:
   * it succeeds, so exactly the containers below the root are gone.
   */
  lemma WholeRegistryIsDeleted(fs: Fs, r: RootContainer, providers: map<Spid, SpContainer>, scan: Scan)
    requires Tidy(fs) && Lookup(fs, Root) == Some(RootBytes(r))
    requires DistinctSpids(r.children) && AllWhole(fs, r.children, providers)
    ensures var (t, code) := CleanupRoot(fs, scan);
      code == Ok && forall k :: Lookup(t, k) == if Below(r, providers, k) then None else Lookup(fs, k)
  {
    assert Stores(fs, r, providers);
    RootReadsBack(r);
    assert RootBytes(r)[..ROOT_SIZE] == RootBytes(r);
    assert Read(fs, Root, Some(ROOT_SIZE)) == Contents(RootBytes(r));
    TidyProvidersGo(fs, r.children, providers, scan);
    SpsCleaned(fs, r.children, scan, Root);
    assert !DoomedBy(fs, r.children, Root);
    forall k ensures Lookup(CleanupRoot(fs, scan).0, k) == if Below(r, providers, k) then None else Lookup(fs, k) {
      CascadeOnFields(fs, r, providers, scan, k);
    }
  }

  // ---------------------------------------------------------------- one provider with one trustlet

  const ZEROS16: Bytes16 := [0, 0, 0, 0, 0, 0, 0, 0, 0, 0, 0, 0, 0, 0, 0, 0]
  const ZEROS32: Bytes32 := ZEROS16 + ZEROS16
  const NO_HEADER: Header := ZEROS32 + [0, 0, 0, 0, 0, 0, 0, 0, 0, 0, 0, 0]
  const NO_HASH: HashAndPad := ZEROS32 + ZEROS16
  const ONLY_FREE: seq<Spid> := seq(MC_CONT_CHILDREN_COUNT, _ => MC_SPID_FREE)

  /** Lists service provider 1. */
  const SMALL_ROOT := RootContainer(NO_HEADER, 1, 0, 0, ZEROS16, 0, ONLY_FREE[0 := 1], ZEROS32, NO_HASH)

  /** Lists the trustlet whose UUID is all zeros. */
  const SMALL_PROVIDER := SpContainer(NO_HEADER, 2, 0, 0, 1, NO_CHILDREN[0 := ZEROS16], ZEROS32, NO_HASH)

  const SMALL := Fs(map[Path(Root) := RootBytes(SMALL_ROOT), Path(Sp(1)) := SpBytes(SMALL_PROVIDER),
                        Path(Tl(ZEROS16, 1)) := [0]], {}, {})

  lemma SmallPaths()
    ensures Path(Root) != Path(Sp(1)) && Path(Root) != Path(Tl(ZEROS16, 1)) && Path(Sp(1)) != Path(Tl(ZEROS16, 1))
  {
    if Path(Root) == Path(Sp(1)) { PathInjective(Root, Sp(1)); }
    if Path(Root) == Path(Tl(ZEROS16, 1)) { PathInjective(Root, Tl(ZEROS16, 1)); }
    if Path(Sp(1)) == Path(Tl(ZEROS16, 1)) { PathInjective(Sp(1), Tl(ZEROS16, 1)); }
  }

  lemma ThreeFiles(p: string, q: string, r: string, a: Data, b: Data, c: Data)
    requires p != q && p != r && q != r
    ensures var files := map[p := a, q := b, r := c];
      p in files && q in files && r in files && files[p] == a && files[q] == b && files[r] == c
  {}

  lemma SmallIsStored()
    ensures Lookup(SMALL, Root) == Some(RootBytes(SMALL_ROOT)) && Lookup(SMALL, Sp(1)) == Some(SpBytes(SMALL_PROVIDER))
    ensures Lookup(SMALL, Tl(ZEROS16, 1)) == Some([0])
  {
    SmallPaths();
    ThreeFiles(Path(Root), Path(Sp(1)), Path(Tl(ZEROS16, 1)), RootBytes(SMALL_ROOT), SpBytes(SMALL_PROVIDER), [0]);
  }

  lemma OneTrustletWhole(fs: Fs, p: SpContainer, uuid: Uuid)
    requires Lookup(fs, Sp(1)) == Some(SpBytes(p)) && Lookup(fs, Tl(uuid, 1)).Some?
    requires p.children[0] == uuid && forall i :: 0 < i < 16 ==> p.children[i] == MC_UUID_FREE
    ensures Whole(fs, 1, p)
  {}

  lemma NoDirsTidy(fs: Fs)
    requires fs.dirs == {} && fs.stuck == {}
    ensures Tidy(fs)
  {}

  lemma SmallIsWhole()
    ensures Lookup(SMALL, Root) == Some(RootBytes(SMALL_ROOT)) && Tidy(SMALL) && Whole(SMALL, 1, SMALL_PROVIDER)
  {
    SmallIsStored();
    NoDirsTidy(SMALL);
    OneTrustletWhole(SMALL, SMALL_PROVIDER, ZEROS16);
  }

  lemma SmallIsListed()
    ensures ListsProvider(SMALL_ROOT, 1) && ListsTrustlet(SMALL_PROVIDER, ZEROS16)
    ensures forall i :: 0 < i < 16 ==> SMALL_ROOT.children[i] == MC_SPID_FREE
    ensures SMALL_ROOT.children[0] == 1
  {
    assert SMALL_ROOT.children[0] == 1 && SMALL_PROVIDER.children[0] == ZEROS16;
    assert ZEROS16[0] == 0 && ZEROS16[0] in ZEROS16;
  }

  const SMALL_PROVIDERS: map<Spid, SpContainer> := map[1 := SMALL_PROVIDER]

  lemma OnlyOneWhole(fs: Fs, ns: seq<Spid>, providers: map<Spid, SpContainer>)
    requires ns != [] && ns[0] == 1 && forall i :: 0 < i < |ns| ==> ns[i] == MC_SPID_FREE
    requires 1 in providers && Whole(fs, 1, providers[1])
    ensures DistinctSpids(ns) && AllWhole(fs, ns, providers)
  {}

  lemma SmallIsBelow()
    ensures Below(SMALL_ROOT, SMALL_PROVIDERS, Root) && Below(SMALL_ROOT, SMALL_PROVIDERS, Sp(1))
    ensures Below(SMALL_ROOT, SMALL_PROVIDERS, Tl(ZEROS16, 1))
  {
    SmallIsListed();
  }

  /** Whatever is below the root of a whole registry goes with it. */
  lemma BelowGoes(fs: Fs, r: RootContainer, providers: map<Spid, SpContainer>, scan: Scan, k: Key)
    requires Tidy(fs) && Lookup(fs, Root) == Some(RootBytes(r))
    requires DistinctSpids(r.children) && AllWhole(fs, r.children, providers) && Below(r, providers, k)
    ensures CleanupRoot(fs, scan).1 == Ok && Lookup(CleanupRoot(fs, scan).0, k).None?
  {
    WholeRegistryIsDeleted(fs, r, providers, scan);
  }

  /** Its root is deleted, and with it the provider and the trustlet. */
  lemma SmallRegistryIsDeleted(scan: Scan)
    ensures RootBytes(SMALL_ROOT)[76..84] == [1, 0, 0, 0, 255, 255, 255, 255]
    ensures CleanupRoot(SMALL, scan).1 == Ok && Lookup(CleanupRoot(SMALL, scan).0, Root).None?
    ensures Lookup(CleanupRoot(SMALL, scan).0, Sp(1)).None? && Lookup(CleanupRoot(SMALL, scan).0, Tl(ZEROS16, 1)).None?
  {
    SmallRootBytes();
    SmallIsBelow();
    SmallIsWhole();
    SmallIsListed();
    OnlyOneWhole(SMALL, SMALL_ROOT.children, SMALL_PROVIDERS);
    BelowGoes(SMALL, SMALL_ROOT, SMALL_PROVIDERS, scan, Root);
    BelowGoes(SMALL, SMALL_ROOT, SMALL_PROVIDERS, scan, Sp(1));
    BelowGoes(SMALL, SMALL_ROOT, SMALL_PROVIDERS, scan, Tl(ZEROS16, 1));
  }

  lemma SmallRootBytes()
    ensures RootBytes(SMALL_ROOT)[76..84] == [1, 0, 0, 0, 255, 255, 255, 255]
  {
    var cs := SMALL_ROOT.children;
    SliceOfMiddle(RootFront(SMALL_ROOT), Words(cs), SMALL_ROOT.co + SMALL_ROOT.hashAndPad, 0, 8);
    assert cs[0] == 1 && cs[1] == MC_SPID_FREE;
    WordsAt(cs, 0);
    WordsAt(cs, 1);
    assert Words(cs)[0..8] == Words(cs)[0..4] + Words(cs)[4..8];
  }
}
