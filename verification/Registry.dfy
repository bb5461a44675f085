/**
 * The registry of containers on the file system: storing and reading refine a map from container
 * keys to contents, and deleting a container deletes what depends on it and nothing else.
 */
module Registry {
  import opened Common
  import opened RegistryPaths
  import SecureObject

  type Data = seq<Byte>

  const MAX_SO_CONT_SIZE := 512
  const MC_CONT_CHILDREN_COUNT := 16
  const MC_SPID_FREE: Spid := 0xFFFF_FFFF
  const MC_UUID_FREE: Uuid :=
    [255, 255, 255, 255, 255, 255, 255, 255, 255, 255, 255, 255, 255, 255, 255, 255]

  datatype Code = Ok | InvalidParameter | InvalidDeviceFile | Unknown

  datatype ReadResult = Contents(data: Data) | Failed(code: Code)

  /** Files and directories; `stuck` are the paths that cannot be removed, or not be written. */
  datatype Fs = Fs(files: map<string, Data>, dirs: set<string>, stuck: set<string>)

  function Lookup(fs: Fs, k: Key): Option<Data> {
    if Path(k) in fs.files then Some(fs.files[Path(k)]) else None
  }

  // ---------------------------------------------------------------- store and read

  /** The checks of the three store functions; a missing buffer is the NULL pointer. */
  predicate Storable(k: Key, so: Option<Data>) {
    so.Some? && |so.value| <= 3 * MAX_SO_CONT_SIZE && (k.Sp? ==> k.spid != 0)
  }

  function Store(fs: Fs, k: Key, so: Option<Data>): (Fs, Code) {
    if !Storable(k, so) then (fs, InvalidParameter)
    else if Path(k) in fs.stuck then (fs, InvalidDeviceFile)
    else (fs.(files := fs.files[Path(k) := so.value]), Ok)
  }

  /** The read functions, into a buffer of the given size; no bytes at all count as a failure. */
  function Read(fs: Fs, k: Key, room: Option<nat>): ReadResult {
    if room.None? || (k.Sp? && k.spid == 0) then Failed(InvalidParameter)
    else if Path(k) !in fs.files then Failed(InvalidDeviceFile)
    else
      var file := fs.files[Path(k)];
      var data := if |file| <= room.value then file else file[..room.value];
      if data == [] then Failed(InvalidDeviceFile) else Contents(data)
  }

  /** A store is accepted exactly with a buffer of at most 1536 bytes, a service provider that is not 0, and a file. */
  lemma StoreReports(fs: Fs, k: Key, so: Option<Data>)
    ensures var (t, code) := Store(fs, k, so);
      var proper := so.Some? && |so.value| <= 1536 && k != Sp(0);
      && (code == InvalidParameter <==> !proper)
      && (code == InvalidDeviceFile <==> proper && Path(k) in fs.stuck)
      && (code == Ok <==> proper && Path(k) !in fs.stuck)
      && (if code == Ok then Lookup(t, k) == so else t == fs)
  {}

  /** What was stored is read back exactly, unless it was empty or does not fit the buffer. */
  lemma ReadBackExactlyWhen(fs: Fs, k: Key, data: Data, room: nat)
    requires Store(fs, k, Some(data)).1 == Ok
    ensures Read(Store(fs, k, Some(data)).0, k, Some(room)) == Contents(data) <==> 1 <= |data| <= room
  {}

  /** A store under one key never changes what is read under another. */
  lemma StoreKeepsOthers(fs: Fs, k: Key, so: Option<Data>, l: Key, room: Option<nat>)
    requires l != k
    ensures Read(Store(fs, k, so).0, l, room) == Read(fs, l, room)
    ensures Lookup(Store(fs, k, so).0, l) == Lookup(fs, l)
  {
    if Path(k) == Path(l) { PathInjective(k, l); }
  }

  // ---------------------------------------------------------------- deleting

  function Remove(fs: Fs, path: string): (Fs, bool) {
    if path in fs.files && path !in fs.stuck then (fs.(files := fs.files - {path}), true) else (fs, false)
  }

  /** A file directly in the directory. */
  predicate Within(path: string, dir: string) {
    |path| > |dir| + 1 && path[..|dir| + 1] == dir + "/" && '/' !in path[|dir| + 1..]
  }

  predicate Removable(fs: Fs, path: string, dir: string) {
    Within(path, dir) && path[|dir| + 1] != '.' && path !in fs.stuck
  }

  /** What is left after the visible files of a directory were removed. */
  function Left(fs: Fs, dir: string): map<string, Data> {
    map p | p in fs.files && !Removable(fs, p, dir) :: fs.files[p]
  }

  predicate Empty(files: map<string, Data>, dir: string) {
    forall p :: p in files ==> !Within(p, dir)
  }

  /** Removes the visible files of a directory, and the directory if nothing is left in it. */
  function RemoveDir(fs: Fs, dir: string): (Fs, bool) {
    if dir !in fs.dirs then (fs, true)
    else if Empty(Left(fs, dir), dir) then (fs.(files := Left(fs, dir), dirs := fs.dirs - {dir}), true)
    else (fs.(files := Left(fs, dir)), false)
  }

  /**
   * Which entry of the registry directory, without its extension, belongs to a GP trusted
   * application; finding it reads the .spid and .tabin files.
   */
  type Scan = (Uuid, Spid) -> Option<string>

  /** deleteSPTA; its own failures are ignored. */
  function DeleteSpTa(fs: Fs, base: Option<string>): Fs {
    if base.None? then fs
    else
      var stored := RemoveDir(fs, TbStoragePath(base.value)).0;
      var noBin := Remove(stored, DATA + "/" + base.value + GP_TA_BIN_FILE_EXT).0;
      Remove(noBin, DATA + "/" + base.value + GP_TA_SPID_FILE_EXT).0
  }

  function TlBinPath(uuid: Uuid): string { DATA + "/" + Hex(uuid) + TL_BIN_FILE_EXT }

  /** The binary of a trustlet, legacy or GP. */
  function RemoveBinary(fs: Fs, uuid: Uuid, spid: Spid, scan: Scan): Fs {
    if TlBinPath(uuid) in fs.files then Remove(fs, TlBinPath(uuid)).0 else DeleteSpTa(fs, scan(uuid, spid))
  }

  function CleanupTrustlet(fs: Fs, uuid: Uuid, spid: Spid, scan: Scan): (Fs, Code) {
    var (noData, emptied) := RemoveDir(fs, TlDataPath(uuid));
    if !emptied then (noData, Unknown)
    else
      var (gone, ok) := Remove(RemoveBinary(noData, uuid, spid, scan), Path(Tl(uuid, spid)));
      (gone, if ok then Ok else Unknown)
  }

  /** strncmp finds no difference. */
  predicate SameText(a: seq<Byte>, b: seq<Byte>)
    requires |a| == |b|
  {
    a == [] || (a[0] == b[0] && (a[0] == 0 || SameText(a[1..], b[1..])))
  }

  /** The free marker contains no zero, so comparing it as text compares all of it. */
  lemma {:induction false} FreeIsComparedWhole(a: seq<Byte>, b: seq<Byte>)
    requires |a| == |b| && 0 !in b
    ensures SameText(a, b) <==> a == b
  {
    if a != [] {
      FreeIsComparedWhole(a[1..], b[1..]);
      assert a == [a[0]] + a[1..] && b == [b[0]] + b[1..];
    }
  }

  function CleanupTrustlets(fs: Fs, spid: Spid, uuids: seq<Uuid>, scan: Scan): (Fs, Code)
    decreases |uuids|
  {
    if uuids == [] then (fs, Ok)
    else if SameText(uuids[0], MC_UUID_FREE) then CleanupTrustlets(fs, spid, uuids[1..], scan)
    else
      var (t, code) := CleanupTrustlet(fs, uuids[0], spid, scan);
      if code == Ok then CleanupTrustlets(t, spid, uuids[1..], scan) else (t, code)
  }

  // sizes of the container structures inside a secure object; SecureObject.HashAndPadIs48 says why
  // hash and padding are the same for both
  const HASH_AND_PAD := SecureObject.SO22_HASH_SIZE + SecureObject.SO22_RND_SIZE
  const ROOT_CHILDREN_AT := SecureObject.HEADER_SIZE + 32
  const ROOT_SIZE := SecureObject.HEADER_SIZE + 128 + HASH_AND_PAD
  const SP_CHILDREN_AT := SecureObject.HEADER_SIZE + 16
  const SP_SIZE := SecureObject.HEADER_SIZE + 304 + HASH_AND_PAD

  function SpChildren(data: Data): (cs: seq<Uuid>)
    requires |data| == SP_SIZE
    ensures |cs| == MC_CONT_CHILDREN_COUNT
  {
    seq(MC_CONT_CHILDREN_COUNT, i requires 0 <= i < MC_CONT_CHILDREN_COUNT =>
      data[SP_CHILDREN_AT + 16 * i..SP_CHILDREN_AT + 16 * i + 16])
  }

  /** The ids are little-endian words. */
  function RootChildren(data: Data): (cs: seq<Spid>)
    requires |data| == ROOT_SIZE
    ensures |cs| == MC_CONT_CHILDREN_COUNT
  {
    seq(MC_CONT_CHILDREN_COUNT, i requires 0 <= i < MC_CONT_CHILDREN_COUNT => WordAt(data, ROOT_CHILDREN_AT + 4 * i))
  }

  function WordAt(data: Data, at: nat): Spid
    requires at + 4 <= |data|
  {
    var b0: int, b1: int, b2: int, b3: int := data[at], data[at + 1], data[at + 2], data[at + 3];
    b0 + 256 * b1 + 65536 * b2 + 16777216 * b3
  }

  function CleanupSp(fs: Fs, spid: Spid, scan: Scan): (Fs, Code) {
    if spid == 0 then (fs, InvalidParameter)
    else
      match Read(fs, Sp(spid), Some(SP_SIZE))
      case Failed(code) => (fs, code)
      case Contents(data) =>
        // a short container ends it here, with the code of the successful read
        if |data| != SP_SIZE then (fs, Ok)
        else
          var (t, code) := CleanupTrustlets(fs, spid, SpChildren(data), scan);
          if code != Ok then (t, code) else RemoveSp(t, spid)
  }

  /** The data directory and the container of the service provider itself. */
  function RemoveSp(fs: Fs, spid: Spid): (Fs, Code) {
    var (noData, emptied) := RemoveDir(fs, SpDataPath(spid));
    if !emptied then (noData, Unknown)
    else
      var (gone, ok) := Remove(noData, Path(Sp(spid)));
      (gone, if ok then Ok else Unknown)
  }

  function CleanupSps(fs: Fs, spids: seq<Spid>, scan: Scan): (Fs, Code)
    decreases |spids|
  {
    if spids == [] then (fs, Ok)
    else if spids[0] == MC_SPID_FREE then CleanupSps(fs, spids[1..], scan)
    else
      var (t, code) := CleanupSp(fs, spids[0], scan);
      if code == Ok then CleanupSps(t, spids[1..], scan) else (t, code)
  }

  function CleanupRoot(fs: Fs, scan: Scan): (Fs, Code) {
    match Read(fs, Root, Some(ROOT_SIZE))
    case Failed(code) => (fs, code)
    case Contents(data) =>
      if |data| != ROOT_SIZE then (fs, Ok)
      else
        var (t, code) := CleanupSps(fs, RootChildren(data), scan);
        if code != Ok then (t, code)
        else
          var (gone, ok) := Remove(t, Path(Root));
          (gone, if ok then Ok else Unknown)
  }

  // ---------------------------------------------------------------- what deleting leaves alone

  /** The container is as before, or it is gone. */
  predicate KeptOrGone(fs: Fs, t: Fs, k: Key) { Lookup(t, k) == Lookup(fs, k) || Lookup(t, k).None? }

  lemma RemoveDirKeeps(fs: Fs, dir: string, k: Key)
    ensures Lookup(RemoveDir(fs, DATA + "/" + dir).0, k) == Lookup(fs, k)
  {
    var d := DATA + "/" + dir;
    if Within(Path(k), d) {
      BelowIsNotContainer(dir, Path(k)[|d| + 1..], k);
      SplitAt(Path(k), d);
    }
  }

  lemma SplitAt(path: string, dir: string)
    requires Within(path, dir)
    ensures path == dir + "/" + path[|dir| + 1..]
  {
    assert path == path[..|dir| + 1] + path[|dir| + 1..];
  }

  lemma RemoveBinaryKeeps(fs: Fs, uuid: Uuid, spid: Spid, scan: Scan, k: Key)
    ensures Lookup(RemoveBinary(fs, uuid, spid, scan), k) == Lookup(fs, k)
  {
    BinaryIsNotContainer(DATA + "/" + Hex(uuid), TL_BIN_FILE_EXT, k);
    var base := scan(uuid, spid);
    if base.Some? {
      RemoveDirKeeps(fs, "TbStorage" + "/" + base.value, k);
      BinaryIsNotContainer(DATA + "/" + base.value, GP_TA_BIN_FILE_EXT, k);
      BinaryIsNotContainer(DATA + "/" + base.value, GP_TA_SPID_FILE_EXT, k);
    }
  }

  /** Cleaning up a trustlet touches no other container, and takes its own away if it succeeds. */
  lemma TrustletCleaned(fs: Fs, uuid: Uuid, spid: Spid, scan: Scan, k: Key)
    ensures var (t, code) := CleanupTrustlet(fs, uuid, spid, scan);
      && (k != Tl(uuid, spid) ==> Lookup(t, k) == Lookup(fs, k))
      && KeptOrGone(fs, t, k)
      && (code == Ok ==> Lookup(t, Tl(uuid, spid)).None? && Lookup(fs, Tl(uuid, spid)).Some?)
  {
    var noData := RemoveDir(fs, TlDataPath(uuid)).0;
    RemoveDirKeeps(fs, Hex(uuid), k);
    RemoveDirKeeps(fs, Hex(uuid), Tl(uuid, spid));
    RemoveBinaryKeeps(noData, uuid, spid, scan, k);
    RemoveBinaryKeeps(noData, uuid, spid, scan, Tl(uuid, spid));
    if Path(k) == Path(Tl(uuid, spid)) { PathInjective(k, Tl(uuid, spid)); }
  }

  /** The trustlet containers of the given children. */
  predicate Among(uuids: seq<Uuid>, spid: Spid, k: Key) {
    k.Tl? && k.spid == spid && k.uuid in uuids && k.uuid != MC_UUID_FREE
  }

  lemma {:induction false} TrustletsCleaned(fs: Fs, spid: Spid, uuids: seq<Uuid>, scan: Scan, k: Key)
    ensures var (t, code) := CleanupTrustlets(fs, spid, uuids, scan);
      && (!Among(uuids, spid, k) ==> Lookup(t, k) == Lookup(fs, k))
      && KeptOrGone(fs, t, k)
      && (code == Ok && Among(uuids, spid, k) ==> Lookup(t, k).None?)
    decreases |uuids|
  {
    if uuids != [] {
      FreeIsComparedWhole(uuids[0], MC_UUID_FREE);
      TrustletCleaned(fs, uuids[0], spid, scan, k);
      var next := if SameText(uuids[0], MC_UUID_FREE) then fs else CleanupTrustlet(fs, uuids[0], spid, scan).0;
      TrustletsCleaned(next, spid, uuids[1..], scan, k);
    }
  }

  /** The container of a service provider is there in full size. */
  predicate FullSp(fs: Fs, spid: Spid) {
    Lookup(fs, Sp(spid)).Some? && |Lookup(fs, Sp(spid)).value| >= SP_SIZE
  }

  /** What deleting a service provider takes away: a full container and those it lists. */
  predicate Doomed(fs: Fs, spid: Spid, k: Key) {
    FullSp(fs, spid)
    && (k == Sp(spid) || Among(SpChildren(Lookup(fs, Sp(spid)).value[..SP_SIZE]), spid, k))
  }

  lemma SpCleaned(fs: Fs, spid: Spid, scan: Scan, k: Key)
    ensures var (t, code) := CleanupSp(fs, spid, scan);
      && (!Doomed(fs, spid, k) ==> Lookup(t, k) == Lookup(fs, k))
      && KeptOrGone(fs, t, k)
      && (code == Ok && Doomed(fs, spid, k) ==> Lookup(t, k).None?)
      && (code == Ok ==> Lookup(fs, Sp(spid)).Some?)
  {
    if spid != 0 && FullSp(fs, spid) {
      var data := Lookup(fs, Sp(spid)).value[..SP_SIZE];
      assert Read(fs, Sp(spid), Some(SP_SIZE)) == Contents(data);
      FullSpCleaned(fs, spid, data, scan, k);
    }
  }

  lemma FullSpCleaned(fs: Fs, spid: Spid, data: Data, scan: Scan, k: Key)
    requires spid != 0 && Read(fs, Sp(spid), Some(SP_SIZE)) == Contents(data) && |data| == SP_SIZE
    ensures var (t, code) := CleanupSp(fs, spid, scan);
      && (!(k == Sp(spid) || Among(SpChildren(data), spid, k)) ==> Lookup(t, k) == Lookup(fs, k))
      && KeptOrGone(fs, t, k)
      && (code == Ok && (k == Sp(spid) || Among(SpChildren(data), spid, k)) ==> Lookup(t, k).None?)
  {
    var t := CleanupTrustlets(fs, spid, SpChildren(data), scan).0;
    TrustletsCleaned(fs, spid, SpChildren(data), scan, k);
    SpRemoved(t, spid, k);
  }

  lemma SpRemoved(fs: Fs, spid: Spid, k: Key)
    ensures var (t, code) := RemoveSp(fs, spid);
      && (k != Sp(spid) ==> Lookup(t, k) == Lookup(fs, k))
      && KeptOrGone(fs, t, k)
      && (code == Ok ==> Lookup(t, Sp(spid)).None?)
  {
    RemoveDirKeeps(fs, Reversed(spid, 8), k);
    if Path(k) == Path(Sp(spid)) { PathInjective(k, Sp(spid)); }
  }

  // ---------------------------------------------------------------- files other than containers

  /** The name is that of a file directly in the directory, and does not start with a dot. */
  predicate Visible(path: string, dir: string) {
    |path| > |dir| + 1 && path[..|dir|] == dir && path[|dir|] == '/' && path[|dir| + 1] != '.'
    && forall i :: |dir| < i < |path| ==> path[i] != '/'
  }

  /** The directory's visible files go as far as they can; it goes exactly if no file is left in it. */
  lemma DirectoryIsEmptied(fs: Fs, dir: string)
    requires dir in fs.dirs
    ensures var (t, gone) := RemoveDir(fs, dir);
      && (forall p :: p in t.files <==> p in fs.files && (p in fs.stuck || !Visible(p, dir)))
      && (forall p :: p in t.files ==> t.files[p] == fs.files[p])
      && (gone <==> forall p :: p in t.files ==> !Within(p, dir))
      && t.dirs == if gone then fs.dirs - {dir} else fs.dirs
  {
    forall p: string ensures Visible(p, dir) <==> Within(p, dir) && p[|dir| + 1] != '.' { VisibleIsWithin(p, dir); }
  }

  lemma VisibleIsWithin(p: string, dir: string)
    ensures Visible(p, dir) <==> Within(p, dir) && p[|dir| + 1] != '.'
  {
    if |p| > |dir| + 1 {
      var rest := p[|dir| + 1..];
      assert p[..|dir| + 1] == p[..|dir|] + [p[|dir|]];
      assert forall i :: 0 <= i < |rest| ==> rest[i] == p[|dir| + 1 + i];
      if p[..|dir| + 1] == dir + "/" {
        assert p[..|dir|] == p[..|dir| + 1][..|dir|] == dir;
        assert p[|dir|] == p[..|dir| + 1][|dir|] == '/';
      }
      if Visible(p, dir) { assert '/' !in rest; }
      if Within(p, dir) {
        forall i | |dir| < i < |p| ensures p[i] != '/' { assert rest[i - |dir| - 1] == p[i]; }
      }
    }
  }

  /** No visible file of a directory that was there is left. */
  ghost predicate Emptied(fs: Fs, t: Fs, dir: string) {
    dir in fs.dirs ==> forall p :: p in t.files ==> !Visible(p, dir)
  }

  ghost predicate FewerFiles(fs: Fs, t: Fs) {
    t.files.Keys <= fs.files.Keys && t.dirs <= fs.dirs && t.stuck == fs.stuck
  }

  lemma DirectoryEmptied(fs: Fs, dir: string)
    requires fs.stuck == {}
    ensures Emptied(fs, RemoveDir(fs, dir).0, dir) && FewerFiles(fs, RemoveDir(fs, dir).0)
  {
    if dir in fs.dirs { DirectoryIsEmptied(fs, dir); }
  }

  lemma EmptiedStays(fs: Fs, t: Fs, u: Fs, dir: string)
    requires Emptied(fs, t, dir) && FewerFiles(t, u)
    ensures Emptied(fs, u, dir)
  {}

  lemma Removed(fs: Fs, path: string)
    requires fs.stuck == {}
    ensures path !in Remove(fs, path).0.files && FewerFiles(fs, Remove(fs, path).0)
  {}

  /** What belongs to the GP trusted application of that name: storage, binary and .spid file. */
  ghost predicate GpGone(fs: Fs, t: Fs, base: string) {
    && DATA + "/" + base + ".tabin" !in t.files && DATA + "/" + base + ".spid" !in t.files
    && Emptied(fs, t, TbStoragePath(base))
  }

  lemma GpFilesGo(fs: Fs, base: string)
    requires fs.stuck == {}
    ensures GpGone(fs, DeleteSpTa(fs, Some(base)), base) && FewerFiles(fs, DeleteSpTa(fs, Some(base)))
  {
    var stored := RemoveDir(fs, TbStoragePath(base)).0;
    var noBin := Remove(stored, DATA + "/" + base + ".tabin").0;
    DirectoryEmptied(fs, TbStoragePath(base));
    Removed(stored, DATA + "/" + base + ".tabin");
    Removed(noBin, DATA + "/" + base + ".spid");
  }

  /** The binary is not in the data directory. */
  lemma DataDirKeepsBinary(fs: Fs, uuid: Uuid)
    ensures TlBinPath(uuid) in RemoveDir(fs, TlDataPath(uuid)).0.files <==> TlBinPath(uuid) in fs.files
  {
    var dir := TlDataPath(uuid);
    assert TlBinPath(uuid) == dir + ".tlbin";
    assert (dir + ".tlbin")[..|dir| + 1][|dir|] == '.';
  }

  /**
   * A trustlet that was cleaned up has no data directory any more, and its binary is gone: the one of
   * a legacy trustlet, or what belongs to the GP trusted application that was found.
   */
  lemma TrustletLeavesNothing(fs: Fs, uuid: Uuid, spid: Spid, scan: Scan)
    requires fs.stuck == {} && CleanupTrustlet(fs, uuid, spid, scan).1 == Ok
    ensures var t := CleanupTrustlet(fs, uuid, spid, scan).0;
      && TlDataPath(uuid) !in t.dirs && TlBinPath(uuid) !in t.files
      && (TlBinPath(uuid) !in fs.files && scan(uuid, spid).Some? ==>
            GpGone(RemoveDir(fs, TlDataPath(uuid)).0, t, scan(uuid, spid).value))
  {
    var noData := RemoveDir(fs, TlDataPath(uuid)).0;
    var noBinary := RemoveBinary(noData, uuid, spid, scan);
    DirectoryEmptied(fs, TlDataPath(uuid));
    DataDirKeepsBinary(fs, uuid);
    if TlBinPath(uuid) in noData.files { Removed(noData, TlBinPath(uuid)); }
    else if scan(uuid, spid).Some? {
      GpFilesGo(noData, scan(uuid, spid).value);
      EmptiedStays(noData, noBinary, CleanupTrustlet(fs, uuid, spid, scan).0, TbStoragePath(scan(uuid, spid).value));
    }
    Removed(noBinary, Path(Tl(uuid, spid)));
  }

  // ---------------------------------------------------------------- the whole cascade

  predicate DoomedBy(fs: Fs, spids: seq<Spid>, k: Key) {
    exists i :: 0 <= i < |spids| && spids[i] != MC_SPID_FREE && Doomed(fs, spids[i], k)
  }

  lemma DoomedByTail(fs: Fs, spids: seq<Spid>, k: Key)
    requires spids != []
    ensures DoomedBy(fs, spids, k) <==>
      ((spids[0] != MC_SPID_FREE && Doomed(fs, spids[0], k)) || DoomedBy(fs, spids[1..], k))
  {
    if DoomedBy(fs, spids[1..], k) {
      var i :| 0 <= i < |spids[1..]| && spids[1..][i] != MC_SPID_FREE && Doomed(fs, spids[1..][i], k);
      assert spids[i + 1] == spids[1..][i];
    }
    if DoomedBy(fs, spids, k) {
      var i :| 0 <= i < |spids| && spids[i] != MC_SPID_FREE && Doomed(fs, spids[i], k);
      assert i > 0 ==> spids[1..][i - 1] == spids[i];
    }
  }

  /** Cleaning up one service provider dooms nothing new, and spares what only others doom. */
  lemma DoomedLater(fs: Fs, spid: Spid, scan: Scan, spids: seq<Spid>, k: Key)
    ensures DoomedBy(CleanupSp(fs, spid, scan).0, spids, k) ==> DoomedBy(fs, spids, k)
    ensures DoomedBy(fs, spids, k) && !Doomed(fs, spid, k) ==> DoomedBy(CleanupSp(fs, spid, scan).0, spids, k)
  {
    var t := CleanupSp(fs, spid, scan).0;
    forall other ensures Doomed(t, other, k) ==> Doomed(fs, other, k)
      ensures other != spid ==> (Doomed(t, other, k) <==> Doomed(fs, other, k))
    {
      SpCleaned(fs, spid, scan, Sp(other));
    }
  }

  /** All listed service providers, for one container. */
  lemma {:induction false} SpsCleaned(fs: Fs, spids: seq<Spid>, scan: Scan, k: Key)
    ensures var (t, code) := CleanupSps(fs, spids, scan);
      && (!DoomedBy(fs, spids, k) ==> Lookup(t, k) == Lookup(fs, k))
      && KeptOrGone(fs, t, k)
      && (code == Ok && DoomedBy(fs, spids, k) ==> Lookup(t, k).None?)
    decreases |spids|
  {
    if spids != [] {
      var first := spids[0];
      DoomedByTail(fs, spids, k);
      if first == MC_SPID_FREE {
        SpsCleaned(fs, spids[1..], scan, k);
      } else {
        SpCleaned(fs, first, scan, k);
        DoomedLater(fs, first, scan, spids[1..], k);
        SpsCleaned(CleanupSp(fs, first, scan).0, spids[1..], scan, k);
      }
    }
  }

  /** If all succeed, the container of each listed service provider was there. */
  lemma {:induction false} SpsExisted(fs: Fs, spids: seq<Spid>, scan: Scan, i: nat)
    requires CleanupSps(fs, spids, scan).1 == Ok && i < |spids| && spids[i] != MC_SPID_FREE
    ensures Lookup(fs, Sp(spids[i])).Some?
    decreases |spids|
  {
    if spids[0] != MC_SPID_FREE { SpCleaned(fs, spids[0], scan, Sp(spids[i])); }
    if i > 0 {
      assert spids[1..][i - 1] == spids[i];
      var next := if spids[0] == MC_SPID_FREE then fs else CleanupSp(fs, spids[0], scan).0;
      SpsExisted(next, spids[1..], scan, i - 1);
    } else {
      SpCleaned(fs, spids[0], scan, Sp(spids[0]));
    }
  }

  predicate FullRoot(fs: Fs) { Lookup(fs, Root).Some? && |Lookup(fs, Root).value| >= ROOT_SIZE }

  /** The service providers a full root container lists. */
  function Listed(fs: Fs): seq<Spid>
    requires FullRoot(fs)
  {
    RootChildren(Lookup(fs, Root).value[..ROOT_SIZE])
  }

  /** What must be gone after the root is deleted: the root, its children and their children. */
  predicate Dependent(fs: Fs, k: Key) {
    k == Root
    || (FullRoot(fs)
        && exists i :: 0 <= i < MC_CONT_CHILDREN_COUNT && Listed(fs)[i] != MC_SPID_FREE
             && (k == Sp(Listed(fs)[i]) || Doomed(fs, Listed(fs)[i], k)))
  }

  lemma RootRead(fs: Fs)
    requires FullRoot(fs)
    ensures Read(fs, Root, Some(ROOT_SIZE)) == Contents(Lookup(fs, Root).value[..ROOT_SIZE])
  {}

  /** Deleting the root touches only what depends on it, whatever the outcome. */
  lemma CascadeKeepsOthers(fs: Fs, scan: Scan, k: Key)
    requires !Dependent(fs, k)
    ensures Lookup(CleanupRoot(fs, scan).0, k) == Lookup(fs, k)
  {
    if FullRoot(fs) {
      RootRead(fs);
      SpsCleaned(fs, Listed(fs), scan, k);
      if Path(k) == Path(Root) { PathInjective(k, Root); }
    }
  }

  lemma FullCascade(fs: Fs, scan: Scan, k: Key)
    requires CleanupRoot(fs, scan).1 == Ok && FullRoot(fs)
    ensures var t := CleanupRoot(fs, scan).0;
      && Lookup(t, Root).None?
      && (DoomedBy(fs, Listed(fs), k) ==> Lookup(t, k).None?)
      && (k != Root && !DoomedBy(fs, Listed(fs), k) ==> Lookup(t, k) == Lookup(fs, k))
  {
    RootRead(fs);
    SpsCleaned(fs, Listed(fs), scan, k);
    if Path(k) == Path(Root) { PathInjective(k, Root); }
  }

  /** Every dependent container is gone. */
  ghost predicate Complete(fs: Fs, t: Fs) { forall k :: Dependent(fs, k) ==> Lookup(t, k).None? }

  predicate AllFull(fs: Fs) {
    FullRoot(fs)
    && forall i :: 0 <= i < MC_CONT_CHILDREN_COUNT && Listed(fs)[i] != MC_SPID_FREE ==> FullSp(fs, Listed(fs)[i])
  }

  /**
   * A deletion of the root that reports success is complete exactly when no container it reads is
   * too short; a short one is skipped in silence with everything below it.
   */
  lemma CascadeCompleteExactlyWhen(fs: Fs, scan: Scan)
    requires CleanupRoot(fs, scan).1 == Ok
    ensures Complete(fs, CleanupRoot(fs, scan).0) <==> AllFull(fs)
  {
    var t := CleanupRoot(fs, scan).0;
    if AllFull(fs) {
      forall k | Dependent(fs, k) ensures Lookup(t, k).None? { FullCascade(fs, scan, k); }
    } else if !FullRoot(fs) {
      assert Dependent(fs, Root) && Lookup(t, Root).Some?;
    } else {
      var i :| 0 <= i < MC_CONT_CHILDREN_COUNT && Listed(fs)[i] != MC_SPID_FREE && !FullSp(fs, Listed(fs)[i]);
      ShortSpStays(fs, scan, i);
    }
  }

  lemma ShortSpStays(fs: Fs, scan: Scan, i: nat)
    requires CleanupRoot(fs, scan).1 == Ok && FullRoot(fs) && i < MC_CONT_CHILDREN_COUNT
    requires Listed(fs)[i] != MC_SPID_FREE && !FullSp(fs, Listed(fs)[i])
    ensures Dependent(fs, Sp(Listed(fs)[i])) && Lookup(CleanupRoot(fs, scan).0, Sp(Listed(fs)[i])).Some?
  {
    RootRead(fs);
    SpsExisted(fs, Listed(fs), scan, i);
    FullCascade(fs, scan, Sp(Listed(fs)[i]));
  }

  /** A concrete one: a root container of one byte survives its deletion. */
  lemma ShortRootSurvives(scan: Scan)
    ensures var fs := Fs(map[Path(Root) := [0]], {}, {});
      CleanupRoot(fs, scan) == (fs, Ok) && Lookup(CleanupRoot(fs, scan).0, Root).Some?
  {
    var fs := Fs(map[Path(Root) := [0]], {}, {});
    assert Read(fs, Root, Some(ROOT_SIZE)) == Contents([0]);
  }

  // ---------------------------------------------------------------- any requests in any order

  datatype Deletion = TrustletOf(uuid: Uuid, spid: Spid) | ProviderOf(spid: Spid) | Everything

  datatype Request =
    | StoreRequest(k: Key, so: Option<Data>)
    | ReadRequest(k: Key, room: Option<nat>)
    | DeleteRequest(what: Deletion, scan: Scan)

  datatype Reply = Stored(code: Code) | WasRead(result: ReadResult) | Deleted(code: Code)

  function Cleanup(fs: Fs, what: Deletion, scan: Scan): (Fs, Code) {
    match what
    case TrustletOf(uuid, spid) => CleanupTrustlet(fs, uuid, spid, scan)
    case ProviderOf(spid) => CleanupSp(fs, spid, scan)
    case Everything => CleanupRoot(fs, scan)
  }

  function Serve(fs: Fs, r: Request): (Fs, Reply) {
    match r
    case StoreRequest(k, so) => var (t, code) := Store(fs, k, so); (t, Stored(code))
    case ReadRequest(k, room) => (fs, WasRead(Read(fs, k, room)))
    case DeleteRequest(what, scan) => var (t, code) := Cleanup(fs, what, scan); (t, Deleted(code))
  }

  function ServeAll(fs: Fs, rs: seq<Request>): (Fs, seq<Reply>)
    decreases |rs|
  {
    if rs == [] then (fs, [])
    else
      var (t, reply) := Serve(fs, rs[0]);
      var (end, rest) := ServeAll(t, rs[1..]);
      (end, [reply] + rest)
  }

  /** The same on a map from keys to contents: a service provider's container and those it lists. */
  predicate SpGoes(m: map<Key, Data>, spid: Spid, k: Key) {
    Sp(spid) in m && |m[Sp(spid)]| >= SP_SIZE
    && (k == Sp(spid) || Among(SpChildren(m[Sp(spid)][..SP_SIZE]), spid, k))
  }

  predicate SomeSpGoes(m: map<Key, Data>, spids: seq<Spid>, k: Key) {
    exists i :: 0 <= i < |spids| && spids[i] != MC_SPID_FREE && SpGoes(m, spids[i], k)
  }

  /** The keys a deletion is about; a container that is too short has nothing below it. */
  predicate Goes(m: map<Key, Data>, what: Deletion, k: Key) {
    match what
    case TrustletOf(uuid, spid) => k == Tl(uuid, spid)
    case ProviderOf(spid) => SpGoes(m, spid, k)
    case Everything =>
      Root in m && |m[Root]| >= ROOT_SIZE && (k == Root || SomeSpGoes(m, RootChildren(m[Root][..ROOT_SIZE]), k))
  }

  /** Nothing else is touched, and if it succeeds all of it is gone. */
  ghost predicate MapDeletes(m: map<Key, Data>, what: Deletion, code: Code, n: map<Key, Data>) {
    && (forall k :: k in n ==> k in m && n[k] == m[k])
    && (forall k :: k in m && !Goes(m, what, k) ==> k in n)
    && (code == Ok ==> forall k :: k in n ==> !Goes(m, what, k))
  }

  /** What a map does with one request; `broken` are keys that cannot be written. */
  ghost predicate MapServes(m: map<Key, Data>, broken: set<Key>, r: Request, reply: Reply, n: map<Key, Data>) {
    match r
    case StoreRequest(k, so) =>
      if !Storable(k, so) then n == m && reply == Stored(InvalidParameter)
      else if k in broken then n == m && reply == Stored(InvalidDeviceFile)
      else n == m[k := so.value] && reply == Stored(Ok)
    case ReadRequest(k, room) =>
      n == m
      && reply == (if room.None? || (k.Sp? && k.spid == 0) then WasRead(Failed(InvalidParameter))
                   else if k !in m || m[k] == [] || room.value == 0 then WasRead(Failed(InvalidDeviceFile))
                   else WasRead(Contents(if |m[k]| <= room.value then m[k] else m[k][..room.value])))
    case DeleteRequest(what, _) => reply.Deleted? && MapDeletes(m, what, reply.code, n)
  }

  ghost predicate MapServesAll(m: map<Key, Data>, broken: set<Key>, rs: seq<Request>, replies: seq<Reply>)
    decreases |rs|
  {
    |replies| == |rs|
    && (rs != [] ==>
          exists n :: MapServes(m, broken, rs[0], replies[0], n) && MapServesAll(n, broken, rs[1..], replies[1..]))
  }

  /** The files hold what the map holds. */
  ghost predicate Represents(fs: Fs, m: map<Key, Data>, broken: set<Key>) {
    && (forall k :: Lookup(fs, k) == if k in m then Some(m[k]) else None)
    && (forall k :: Path(k) in fs.stuck <==> k in broken)
  }

  lemma SpGoesAlike(fs: Fs, m: map<Key, Data>, broken: set<Key>, spid: Spid, k: Key)
    requires Represents(fs, m, broken)
    ensures SpGoes(m, spid, k) <==> Doomed(fs, spid, k)
  {
    assert Lookup(fs, Sp(spid)) == if Sp(spid) in m then Some(m[Sp(spid)]) else None;
  }

  lemma SomeSpGoesAlike(fs: Fs, m: map<Key, Data>, broken: set<Key>, spids: seq<Spid>, k: Key)
    requires Represents(fs, m, broken)
    ensures SomeSpGoes(m, spids, k) <==> DoomedBy(fs, spids, k)
  {
    forall i | 0 <= i < |spids| ensures SpGoes(m, spids[i], k) <==> Doomed(fs, spids[i], k) {
      SpGoesAlike(fs, m, broken, spids[i], k);
    }
  }

  lemma TrustletKeepsStuck(fs: Fs, uuid: Uuid, spid: Spid, scan: Scan)
    ensures CleanupTrustlet(fs, uuid, spid, scan).0.stuck == fs.stuck
  {}

  lemma {:induction false} TrustletsKeepStuck(fs: Fs, spid: Spid, uuids: seq<Uuid>, scan: Scan)
    ensures CleanupTrustlets(fs, spid, uuids, scan).0.stuck == fs.stuck
    decreases |uuids|
  {
    if uuids != [] {
      if SameText(uuids[0], MC_UUID_FREE) {
        TrustletsKeepStuck(fs, spid, uuids[1..], scan);
      } else {
        TrustletKeepsStuck(fs, uuids[0], spid, scan);
        TrustletsKeepStuck(CleanupTrustlet(fs, uuids[0], spid, scan).0, spid, uuids[1..], scan);
      }
    }
  }

  lemma SpKeepsStuck(fs: Fs, spid: Spid, scan: Scan)
    ensures CleanupSp(fs, spid, scan).0.stuck == fs.stuck
  {
    var read := Read(fs, Sp(spid), Some(SP_SIZE));
    if read.Contents? && |read.data| == SP_SIZE { TrustletsKeepStuck(fs, spid, SpChildren(read.data), scan); }
  }

  lemma {:induction false} SpsKeepStuck(fs: Fs, spids: seq<Spid>, scan: Scan)
    ensures CleanupSps(fs, spids, scan).0.stuck == fs.stuck
    decreases |spids|
  {
    if spids != [] {
      var next := if spids[0] == MC_SPID_FREE then fs else CleanupSp(fs, spids[0], scan).0;
      SpKeepsStuck(fs, spids[0], scan);
      SpsKeepStuck(next, spids[1..], scan);
    }
  }

  lemma CleanupKeepsStuck(fs: Fs, what: Deletion, scan: Scan)
    ensures Cleanup(fs, what, scan).0.stuck == fs.stuck
  {
    match what
    case TrustletOf(uuid, spid) => TrustletKeepsStuck(fs, uuid, spid, scan);
    case ProviderOf(spid) => SpKeepsStuck(fs, spid, scan);
    case Everything =>
      var read := Read(fs, Root, Some(ROOT_SIZE));
      if read.Contents? && |read.data| == ROOT_SIZE { SpsKeepStuck(fs, RootChildren(read.data), scan); }
  }

  /** One deletion, for one container. */
  lemma Cleaned(fs: Fs, m: map<Key, Data>, broken: set<Key>, what: Deletion, scan: Scan, k: Key)
    requires Represents(fs, m, broken)
    ensures var (t, code) := Cleanup(fs, what, scan);
      && (!Goes(m, what, k) ==> Lookup(t, k) == Lookup(fs, k))
      && KeptOrGone(fs, t, k)
      && (code == Ok && Goes(m, what, k) ==> Lookup(t, k).None?)
  {
    match what
    case TrustletOf(uuid, spid) => TrustletCleaned(fs, uuid, spid, scan, k);
    case ProviderOf(spid) =>
      SpCleaned(fs, spid, scan, k);
      SpGoesAlike(fs, m, broken, spid, k);
    case Everything =>
      RootCleaned(fs, scan, k);
      assert Lookup(fs, Root) == if Root in m then Some(m[Root]) else None;
      if FullRoot(fs) { SomeSpGoesAlike(fs, m, broken, Listed(fs), k); }
  }

  lemma RootCleaned(fs: Fs, scan: Scan, k: Key)
    ensures var (t, code) := CleanupRoot(fs, scan);
      && (!(FullRoot(fs) && (k == Root || DoomedBy(fs, Listed(fs), k))) ==> Lookup(t, k) == Lookup(fs, k))
      && KeptOrGone(fs, t, k)
      && (code == Ok && FullRoot(fs) && (k == Root || DoomedBy(fs, Listed(fs), k)) ==> Lookup(t, k).None?)
  {
    if FullRoot(fs) {
      RootRead(fs);
      SpsCleaned(fs, Listed(fs), scan, k);
      if Path(k) == Path(Root) { PathInjective(k, Root); }
    }
  }

  /** What is left of the map. */
  ghost function Remaining(t: Fs, m: map<Key, Data>): map<Key, Data> {
    map k | k in m && Lookup(t, k).Some? :: m[k]
  }

  lemma DeletionRefines(fs: Fs, m: map<Key, Data>, broken: set<Key>, what: Deletion, scan: Scan)
    requires Represents(fs, m, broken)
    ensures var (t, code) := Cleanup(fs, what, scan);
      MapDeletes(m, what, code, Remaining(t, m)) && Represents(t, Remaining(t, m), broken)
  {
    var (t, code) := Cleanup(fs, what, scan);
    var n := Remaining(t, m);
    CleanupKeepsStuck(fs, what, scan);
    forall k
      ensures && Lookup(t, k) == (if k in n then Some(n[k]) else None)
              && (k in m && !Goes(m, what, k) ==> k in n) && (code == Ok && k in n ==> !Goes(m, what, k))
    {
      assert Lookup(fs, k) == if k in m then Some(m[k]) else None;
      Cleaned(fs, m, broken, what, scan, k);
    }
  }

  lemma StoreOrReadRefines(fs: Fs, m: map<Key, Data>, broken: set<Key>, r: Request) returns (n: map<Key, Data>)
    requires Represents(fs, m, broken) && !r.DeleteRequest?
    ensures MapServes(m, broken, r, Serve(fs, r).1, n) && Represents(Serve(fs, r).0, n, broken)
  {
    var k := r.k;
    assert Lookup(fs, k) == if k in m then Some(m[k]) else None;
    n := if r.StoreRequest? && Store(fs, k, r.so).1 == Ok then m[k := r.so.value] else m;
    forall l ensures Lookup(Serve(fs, r).0, l) == if l in n then Some(n[l]) else None {
      assert Lookup(fs, l) == if l in m then Some(m[l]) else None;
      if r.StoreRequest? && l != k { StoreKeepsOthers(fs, k, r.so, l, None); }
    }
  }

  /** Every run of stores, reads and deletions gets the replies a keyed map would give. */
  lemma {:induction false} RegistryIsKeyedMap(fs: Fs, m: map<Key, Data>, broken: set<Key>, rs: seq<Request>)
    requires Represents(fs, m, broken)
    ensures MapServesAll(m, broken, rs, ServeAll(fs, rs).1)
    decreases |rs|
  {
    if rs != [] {
      var t := Serve(fs, rs[0]).0;
      var n: map<Key, Data>;
      if rs[0].DeleteRequest? {
        DeletionRefines(fs, m, broken, rs[0].what, rs[0].scan);
        n := Remaining(t, m);
      } else {
        n := StoreOrReadRefines(fs, m, broken, rs[0]);
      }
      RegistryIsKeyedMap(t, n, broken, rs[1..]);
      var replies := ServeAll(fs, rs).1;
      assert replies[1..] == ServeAll(t, rs[1..]).1;
      assert MapServes(m, broken, rs[0], replies[0], n) && MapServesAll(n, broken, rs[1..], replies[1..]);
    }
  }

  // ---------------------------------------------------------------- in place

  class PrivateRegistry {
    var fs: Fs

    constructor (files: Fs)
      ensures fs == files
    {
      fs := files;
    }

    method StoreContainer(k: Key, so: Option<Data>) returns (code: Code)
      modifies this
      ensures (fs, code) == Store(old(fs), k, so)
      ensures forall l, room :: l != k ==> Read(fs, l, room) == Read(old(fs), l, room)
    {
      forall l, room | l != k ensures Read(Store(fs, k, so).0, l, room) == Read(fs, l, room) {
        StoreKeepsOthers(fs, k, so, l, room);
      }
      if so.None? || |so.value| > 3 * MAX_SO_CONT_SIZE || (k.Sp? && k.spid == 0) { return InvalidParameter; }
      if Path(k) in fs.stuck { return InvalidDeviceFile; }
      fs := fs.(files := fs.files[Path(k) := so.value]);
      code := Ok;
    }

    /** Opens the directory, removes its visible entries one by one, then the directory. */
    method RemoveDirectory(dir: string) returns (ok: bool)
      modifies this
      ensures (fs, ok) == RemoveDir(old(fs), dir)
    {
      if dir !in fs.dirs { return true; }
      ghost var start := fs;
      var entries := set p | p in fs.files && Within(p, dir) && p[|dir| + 1] != '.';
      while entries != {}
        invariant fs.dirs == start.dirs && fs.stuck == start.stuck
        invariant forall p :: p in fs.files ==> p in start.files && fs.files[p] == start.files[p]
        invariant forall p :: p in start.files && p !in fs.files ==> Removable(start, p, dir)
        invariant forall p :: p in fs.files && Removable(start, p, dir) ==> p in entries
        invariant forall p :: p in entries ==> Within(p, dir) && p[|dir| + 1] != '.'
        decreases |entries|
      {
        var p :| p in entries;
        entries := entries - {p};
        fs := Remove(fs, p).0;
      }
      assert fs.files == Left(start, dir);
      ok := Empty(fs.files, dir);
      if ok { fs := fs.(dirs := fs.dirs - {dir}); }
    }

    method CleanupTrustletContainer(uuid: Uuid, spid: Spid, scan: Scan) returns (code: Code)
      modifies this
      ensures (fs, code) == CleanupTrustlet(old(fs), uuid, spid, scan)
    {
      var emptied := RemoveDirectory(TlDataPath(uuid));
      if !emptied { return Unknown; }
      if TlBinPath(uuid) in fs.files {
        fs := Remove(fs, TlBinPath(uuid)).0;
      } else {
        fs := DeleteSpTa(fs, scan(uuid, spid));
      }
      var gone, ok := Remove(fs, Path(Tl(uuid, spid))).0, Remove(fs, Path(Tl(uuid, spid))).1;
      fs := gone;
      code := if ok then Ok else Unknown;
    }

    method CleanupSpContainer(spid: Spid, scan: Scan) returns (code: Code)
      modifies this
      ensures (fs, code) == CleanupSp(old(fs), spid, scan)
    {
      if spid == 0 { return InvalidParameter; }
      var read := Read(fs, Sp(spid), Some(SP_SIZE));
      if read.Failed? { return read.code; }
      if |read.data| != SP_SIZE { return Ok; }
      var children := SpChildren(read.data);
      ghost var whole := CleanupTrustlets(fs, spid, children, scan);
      code := Ok;
      var i := 0;
      while i < MC_CONT_CHILDREN_COUNT && code == Ok
        invariant 0 <= i <= MC_CONT_CHILDREN_COUNT
        invariant whole == if code == Ok then CleanupTrustlets(fs, spid, children[i..], scan) else (fs, code)
      {
        assert children[i..][1..] == children[i + 1..];
        if !SameText(children[i], MC_UUID_FREE) {
          code := CleanupTrustletContainer(children[i], spid, scan);
        }
        i := i + 1;
      }
      if code != Ok { return code; }
      assert children[i..] == [];
      var emptied := RemoveDirectory(SpDataPath(spid));
      if !emptied { return Unknown; }
      var gone, ok := Remove(fs, Path(Sp(spid))).0, Remove(fs, Path(Sp(spid))).1;
      fs := gone;
      code := if ok then Ok else Unknown;
    }

    method CleanupRootContainer(scan: Scan) returns (code: Code)
      modifies this
      ensures (fs, code) == CleanupRoot(old(fs), scan)
      ensures code == Ok ==> (Complete(old(fs), fs) <==> AllFull(old(fs)))
      ensures forall k :: !Dependent(old(fs), k) ==> Lookup(fs, k) == Lookup(old(fs), k)
    {
      ghost var start := fs;
      code := CleanupAll(scan);
      if code == Ok { CascadeCompleteExactlyWhen(start, scan); }
      forall k | !Dependent(start, k) ensures Lookup(fs, k) == Lookup(start, k) {
        CascadeKeepsOthers(start, scan, k);
      }
    }

    method CleanupAll(scan: Scan) returns (code: Code)
      modifies this
      ensures (fs, code) == CleanupRoot(old(fs), scan)
    {
      var read := Read(fs, Root, Some(ROOT_SIZE));
      if read.Failed? { return read.code; }
      if |read.data| != ROOT_SIZE { return Ok; }
      var children := RootChildren(read.data);
      ghost var whole := CleanupSps(fs, children, scan);
      var i := 0;
      while i < MC_CONT_CHILDREN_COUNT
        invariant 0 <= i <= MC_CONT_CHILDREN_COUNT
        invariant whole == CleanupSps(fs, children[i..], scan)
      {
        assert children[i..][1..] == children[i + 1..];
        if children[i] != MC_SPID_FREE {
          code := CleanupSpContainer(children[i], scan);
          if code != Ok { return; }
        }
        i := i + 1;
      }
      assert children[i..] == [];
      var gone, ok := Remove(fs, Path(Root)).0, Remove(fs, Path(Root)).1;
      fs := gone;
      code := if ok then Ok else Unknown;
    }
  }
}
