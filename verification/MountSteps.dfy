/** The mount as a state machine: what every request does to the mount and to its server, and how that
    relates to the plain file model. */
module MountSteps {
  import opened Basics
  import opened XorbFormat
  import opened ServerModel
  import opened Planner
  import opened Reading
  import opened Agent
  import opened PlainFiles
  import opened InodeTree
  import opened MountModel

  /** A mount and its server. */
  datatype Mounted = Mounted(server: State, fs: Fs)

  // ---- Steps ----

  /** Asking for a file's bytes leaves a cached copy, unless it has a buffer. */
  ghost function Fetched(st: State, fs: Fs, ino: nat): Fs {
    if ino in fs.open then fs
    else match StoredBytes(st, fs, ino) case Some(bytes) => Remember(fs, ino, bytes) case None => fs
  }

  /** Write a dirty buffer back. */
  ghost function FlushStep(P: Primitives, volume: string, m: Mounted, ino: nat): Mounted {
    if !Dirty(m.fs, ino) || ino !in m.fs.nodes then m else
    var buf := m.fs.open[ino].buf;
    Mounted(Ingested(P, m.server, buf, (volume, FullPath(m.fs.nodes, ino))),
            Stored(m.fs, ino, FileHash(P.chunker(buf)), buf))
  }

  ghost function EditStep(m: Mounted, ino: nat, buf: Bytes): Mounted
    requires ino in m.fs.nodes
  {
    m.(fs := Stage(Fetched(m.server, m.fs, ino), ino, buf))
  }

  ghost function CreateStep(m: Mounted, parent: nat, name: string): (Mounted, Reply) {
    if parent !in m.fs.nodes then (m, NoEntry) else
    match LookupChild(m.fs.nodes, parent, name)
    case Some(i) => (m.(fs := Reopen(m.fs, i)), Created(i))
    case None => (m.(fs := CreateFresh(m.fs, parent, name)), Created(m.fs.next))
  }

  /** One request: the next state and the answer. */
  ghost function MountStep(P: Primitives, volume: string, m: Mounted, op: Op): (Mounted, Reply) {
    match op
    case Create(parent, name) => CreateStep(m, parent, name)
    case Write(ino, offset, data) =>
      if ino !in m.fs.nodes then (m, NoEntry)
      else (EditStep(m, ino, WriteAt(Served(m.server, m.fs, ino), Max(offset, 0), data)), Written(|data|))
    case SetSize(ino, size) =>
      if ino !in m.fs.nodes then (m, NoEntry)
      else (EditStep(m, ino, Resize(Served(m.server, m.fs, ino), size)), Attr(size))
    case Read(ino, offset, size) =>
      (m.(fs := Fetched(m.server, m.fs, ino)),
       if ino in m.fs.open || StoredBytes(m.server, m.fs, ino).Some?
       then Data(Slice(Served(m.server, m.fs, ino), Max(offset, 0), size)) else NoEntry)
    case Fsync(ino) => (FlushStep(P, volume, m, ino), Done)
    case Flush(ino) => (FlushStep(P, volume, m, ino), Done)
    case Release(ino) =>
      var t := FlushStep(P, volume, m, ino);
      (t.(fs := Close(t.fs, ino)), Done)
  }

  // ---- What every step keeps ----

  /** The tree is a tree, buffers and hashes are where they belong, and the catalog holds what was
      written back.  Nothing is said of what the server's records decode to. */
  ghost predicate Orderly(P: Primitives, volume: string, m: Mounted, tracked: set<nat>) {
    && ServerReady(P, m.server) && ShapeOk(m.fs) && Linked(m.server, m.fs)
    && CatalogOk(m.server, volume, m.fs, tracked)
  }

  lemma StoredIsFile(st: State, fs: Fs, ino: nat)
    requires Linked(st, fs) && StoredBytes(st, fs, ino).Some?
    ensures IsFile(fs, ino) && fs.nodes[ino].fileHash.Some?
  {
    hide HashBytes, Reassembled;
    if ino in fs.nodes { assert InodeOk(st, fs, ino); }
  }

  lemma FileIsStored(st: State, fs: Fs, ino: nat)
    requires Linked(st, fs)
    ensures IsFile(fs, ino) <==> ino in fs.open || StoredBytes(st, fs, ino).Some?
  {
    hide HashBytes, Reassembled;
    if ino in fs.nodes { assert InodeOk(st, fs, ino); }
  }

  lemma FetchedEffect(P: Primitives, volume: string, m: Mounted, tracked: set<nat>, ino: nat)
    requires Orderly(P, volume, m, tracked)
    ensures var fs' := Fetched(m.server, m.fs, ino);
            && Orderly(P, volume, m.(fs := fs'), tracked) && Abs(fs') == Abs(m.fs) && fs'.nodes == m.fs.nodes
            && (SizesOk(m.fs) ==> SizesOk(fs'))
            && (CacheOk(m.fs) && (ino in m.fs.open || Fetchable(m.server.files, m.fs, ino)) ==> CacheOk(fs'))
  {
    hide ServerReady, TreeOk, CatalogOk, CacheOk, SizesOk, Abs, HashBytes, Reassembled, Aligned;
    var st, fs := m.server, m.fs;
    if ino !in fs.open && StoredBytes(st, fs, ino).Some? {
      StoredIsFile(st, fs, ino);
      hide Linked;
      RememberEffect(st, volume, fs, tracked, ino, StoredBytes(st, fs, ino).value);
      if CacheOk(fs) && Fetchable(st.files, fs, ino) {
        assert ServerOk(P, st) by { ReadyIsOk(P, st); }
        FetchableServes(P, st, fs, ino);
      }
    }
  }

  lemma ReadyIsOk(P: Primitives, st: State)
    requires ServerReady(P, st)
    ensures Healthy(P, st) && ServerOk(P, st)
  {
    hide ServerOk;
  }

  lemma StageEffect(P: Primitives, volume: string, m: Mounted, tracked: set<nat>, ino: nat, buf: Bytes)
    requires Orderly(P, volume, m, tracked) && IsFile(m.fs, ino)
    ensures var fs' := Stage(m.fs, ino, buf);
            && Orderly(P, volume, m.(fs := fs'), tracked + {ino}) && Abs(fs') == Edit(Abs(m.fs), ino, buf)
            && (SizesOk(m.fs) ==> SizesOk(fs')) && (NamesUnique(m.fs.nodes) ==> NamesUnique(fs'.nodes))
            && (CacheOk(m.fs) ==> CacheOk(fs')) && SameFiles(m.fs.nodes, fs'.nodes)
  {
    hide ServerReady, TreeOk, CatalogOk, Linked, CacheOk, Abs, HashBytes, FilesOf, NamesUnique, NamesOf, DirsOf,
      SameFiles, Content;
    SetNodeShape(m.fs, ino, m.fs.nodes[ino].fileHash, |buf|);
    StageContent(m.server, m.fs, ino, buf);
    StageCatalog(m.server, volume, m.fs, tracked, ino, buf);
    StageAbs(m.fs, ino, buf);
    StageSizes(m.fs, ino, buf);
  }

  lemma EditEffect(P: Primitives, volume: string, m: Mounted, tracked: set<nat>, ino: nat, buf: Bytes)
    requires Orderly(P, volume, m, tracked) && IsFile(m.fs, ino)
    ensures var t := EditStep(m, ino, buf);
            && Orderly(P, volume, t, tracked + {ino}) && Abs(t.fs) == Edit(Abs(m.fs), ino, buf)
            && (SizesOk(m.fs) ==> SizesOk(t.fs)) && (NamesUnique(m.fs.nodes) ==> NamesUnique(t.fs.nodes))
            && (CacheOk(m.fs) && (ino in m.fs.open || Fetchable(m.server.files, m.fs, ino)) ==> CacheOk(t.fs))
            && SameFiles(m.fs.nodes, t.fs.nodes)
  {
    hide Orderly, Fetched, CacheOk, SizesOk, NamesUnique, Abs, Fetchable, Stage, SameFiles;
    FetchedEffect(P, volume, m, tracked, ino);
    StageEffect(P, volume, m.(fs := Fetched(m.server, m.fs, ino)), tracked, ino, buf);
  }

  /** Everything a write-back leaves in order. */
  lemma FlushEffect(P: Primitives, volume: string, m: Mounted, tracked: set<nat>, ino: nat)
    requires Lawful(P) && PacksAll(P) && Orderly(P, volume, m, tracked)
    ensures var t := FlushStep(P, volume, m, ino);
            && Orderly(P, volume, t, tracked) && !Dirty(t.fs, ino)
            && Abs(t.fs) == Abs(m.fs).(unsynced := Abs(m.fs).unsynced - {ino})
            && (SizesOk(m.fs) ==> SizesOk(t.fs)) && (NamesUnique(m.fs.nodes) ==> NamesUnique(t.fs.nodes))
            && (CacheOk(m.fs) ==> CacheOk(t.fs)) && SameFiles(m.fs.nodes, t.fs.nodes)
            && (Dirty(m.fs, ino) ==> IsFile(m.fs, ino) && IsFile(t.fs, ino) && InCatalog(t.server, volume, t.fs, ino))
  {
    hide Lawful, PacksAll, ServerReady, CatalogOk, CacheOk, Abs, SizesOk, NamesUnique, TreeOk, FullPath, SameFiles,
      InCatalog, HashBytes, AfterUploads, IngestRecord, Stored;
    if Dirty(m.fs, ino) {
      assert InodeOk(m.server, m.fs, ino);
      var buf := m.fs.open[ino].buf;
      var key := (volume, FullPath(m.fs.nodes, ino));
      ReadyIngest(P, m.server, buf, key);
      hide Linked, Ingested;
      ReadyIsOk(P, m.server);
      var fh := FileHash(P.chunker(buf));
      StoredKeeps(P, m.server, Ingested(P, m.server, buf, key), volume, m.fs, tracked, ino, fh, buf);
    } else {
      NotUnsynced(m.fs, ino);
      SameFilesRefl(m.fs.nodes);
    }
  }

  lemma NotUnsynced(fs: Fs, ino: nat)
    requires !Dirty(fs, ino)
    ensures Abs(fs).(unsynced := Abs(fs).unsynced - {ino}) == Abs(fs)
  {
    assert UnsyncedOf(fs.open) - {ino} == UnsyncedOf(fs.open);
  }

  lemma StoredKeeps(
    P: Primitives, st: State, st': State, volume: string, fs: Fs, tracked: set<nat>, ino: nat, fh: FileHash, buf: Bytes)
    requires Lawful(P) && Healthy(P, st)
    requires ShapeOk(fs) && Linked(st, fs) && CatalogOk(st, volume, fs, tracked)
    requires IsFile(fs, ino) && ino in fs.open && buf == fs.open[ino].buf
    requires fh == FileHash(P.chunker(buf)) && st' == Ingested(P, st, buf, (volume, FullPath(fs.nodes, ino)))
    ensures var fs' := Stored(fs, ino, fh, buf);
            && ShapeOk(fs') && Linked(st', fs') && CatalogOk(st', volume, fs', tracked)
            && Abs(fs') == Abs(fs).(unsynced := Abs(fs).unsynced - {ino})
            && (SizesOk(fs) ==> SizesOk(fs')) && (NamesUnique(fs.nodes) ==> NamesUnique(fs'.nodes))
            && (CacheOk(fs) ==> CacheOk(fs')) && SameFiles(fs.nodes, fs'.nodes)
            && InCatalog(st', volume, fs', ino) && !Dirty(fs', ino) && IsFile(fs', ino)
  {
    hide InCatalog, Healthy, Linked, CacheOk, CatalogOk, FullPath, Abs, SizesOk, AfterUploads, IngestRecord,
      NamesUnique, TreeOk, SameFiles;
    IngestOnlyAdds(P, st, buf);
    assert HashBytes(fh) == buf by { LawfulChunks(P); }
    hide Lawful, HashBytes;
    SetNodeShape(fs, ino, Some(fh), |buf|);
    StoredContent(st, st', fs, ino, fh, buf);
    StoredCatalog(st, st', volume, fs, tracked, ino, fh, buf);
    StoredAbs(fs, ino, fh, buf);
  }

  lemma ReleaseEffect(P: Primitives, volume: string, m: Mounted, tracked: set<nat>, ino: nat)
    requires Lawful(P) && PacksAll(P) && Orderly(P, volume, m, tracked)
    ensures var t := MountStep(P, volume, m, Release(ino)).0;
            && Orderly(P, volume, t, tracked) && ino !in t.fs.open
            && Abs(t.fs) == Abs(m.fs).(unsynced := Abs(m.fs).unsynced - {ino})
            && (SizesOk(m.fs) ==> SizesOk(t.fs)) && (NamesUnique(m.fs.nodes) ==> NamesUnique(t.fs.nodes))
            && (CacheOk(m.fs) ==> CacheOk(t.fs)) && SameFiles(m.fs.nodes, t.fs.nodes)
  {
    hide Lawful, PacksAll, FlushStep, Abs, CacheOk, SizesOk, NamesUnique, SameFiles, ServerReady, ServerOk, Linked,
      CatalogOk, TreeOk;
    FlushEffect(P, volume, m, tracked, ino);
    var t := FlushStep(P, volume, m, ino);
    ReadyIsOk(P, t.server);
    CloseEffect(P, t.server, volume, t.fs, tracked, ino);
  }

  lemma LookupIsName(nodes: Nodes, next: nat, parent: nat, name: string)
    requires TreeOk(nodes, next) && parent in nodes
    ensures LookupChild(nodes, parent, name).None? <==> (parent, name) !in NamesOf(nodes)
    ensures LookupChild(nodes, parent, name).Some? ==> LookupChild(nodes, parent, name).value in nodes
  {
    LookupExact(nodes, next, parent, name);
    hide TreeOk;
    match LookupChild(nodes, parent, name) {
      case Some(c) => assert (nodes[c].parent, nodes[c].name) in NamesOf(nodes);
      case None =>
    }
  }

  lemma CreateEffect(P: Primitives, volume: string, m: Mounted, tracked: set<nat>, parent: nat, name: string)
    requires Orderly(P, volume, m, tracked) && parent in m.fs.nodes && m.fs.nodes[parent].kind.Dir?
    requires (parent, name) !in NamesOf(m.fs.nodes) && '/' !in name
    ensures LookupChild(m.fs.nodes, parent, name).None?
    ensures var fs' := CreateFresh(m.fs, parent, name);
            && Orderly(P, volume, m.(fs := fs'), tracked + {m.fs.next})
            && Abs(fs') == PlainStep(Abs(m.fs), Create(parent, name)).0
            && (SizesOk(m.fs) ==> SizesOk(fs')) && (NamesUnique(m.fs.nodes) ==> NamesUnique(fs'.nodes))
            && (CacheOk(m.fs) ==> CacheOk(fs')) && SameFiles(m.fs.nodes, fs'.nodes)
  {
    hide ServerReady, TreeOk, NamesUnique, SizesOk, HashBytes, FullPath, Linked, CacheOk, DirsOf, NamesOf, CatalogOk,
      LookupChild, FilesOf, UnsyncedOf, SameFiles, Abs;
    LookupIsName(m.fs.nodes, m.fs.next, parent, name);
    CreateFreshShape(m.fs, parent, name);
    CreateFreshContent(m.server, m.fs, parent, name);
    CreateFreshCatalog(m.server, volume, m.fs, tracked, parent, name);
    CreateFreshAbs(m.server, m.fs, parent, name);
    if NamesUnique(m.fs.nodes) { CreateFreshUnique(m.fs, parent, name); }
  }

  /** Every legal request keeps the mount in order, whatever the server's records decode to. */
  lemma StepOrderly(P: Primitives, volume: string, m: Mounted, tracked: set<nat>, op: Op)
    requires Lawful(P) && PacksAll(P) && Orderly(P, volume, m, tracked) && Legal(Abs(m.fs), op)
    ensures var t := MountStep(P, volume, m, op).0;
            && Orderly(P, volume, t, tracked + Edits(Abs(m.fs), op))
            && (NamesUnique(m.fs.nodes) ==> NamesUnique(t.fs.nodes)) && SameFiles(m.fs.nodes, t.fs.nodes)
  {
    hide Lawful, PacksAll, Orderly, NamesUnique, NamesOf, EditStep, Fetched, FlushStep, WriteAt, Resize, Slice,
      SameFiles, Served, StoredBytes, CacheOk, SizesOk, LookupChild, UnsyncedOf, CreateFresh;
    LegalParts(m.fs, op);
    hide Abs;
    assert tracked + {} == tracked;
    match op {
      case Create(parent, name) => CreateEffect(P, volume, m, tracked, parent, name);
      case Write(ino, offset, data) =>
        EditEffect(P, volume, m, tracked, ino, WriteAt(Served(m.server, m.fs, ino), Max(offset, 0), data));
      case SetSize(ino, size) => EditEffect(P, volume, m, tracked, ino, Resize(Served(m.server, m.fs, ino), size));
      case Read(ino, _, _) =>
        FetchedEffect(P, volume, m, tracked, ino);
        SameFilesRefl(m.fs.nodes);
      case Fsync(ino) => FlushEffect(P, volume, m, tracked, ino);
      case Flush(ino) => FlushEffect(P, volume, m, tracked, ino);
      case Release(ino) => ReleaseEffect(P, volume, m, tracked, ino);
    }
  }

  // ---- Refinement ----

  /** This file's content can be had: from its buffer, from the cache or by its hash. */
  predicate CanRead(files: map<FileHash, FileRecord>, fs: Fs, ino: nat) {
    ino in fs.open || Fetchable(files, fs, ino)
  }

  /** The content a request depends on can be had. */
  predicate CanServe(files: map<FileHash, FileRecord>, fs: Fs, op: Op) {
    match op
    case Write(ino, _, _) => CanRead(files, fs, ino)
    case SetSize(ino, _) => CanRead(files, fs, ino)
    case Read(ino, _, _) => CanRead(files, fs, ino)
    case _ => true
  }

  lemma ServesContent(P: Primitives, m: Mounted, ino: nat)
    requires ServerReady(P, m.server) && ContentOk(m.server, m.fs) && CanRead(m.server.files, m.fs, ino)
    ensures ino in m.fs.nodes ==> Served(m.server, m.fs, ino) == Content(m.fs, ino)
  {
    hide ServerReady, ContentOk, HashBytes, Fetchable;
    ReadyIsOk(P, m.server);
    if ino !in m.fs.open { FetchableServes(P, m.server, m.fs, ino); }
  }

  /** A request whose content can be had acts and answers as the plain model does. */
  lemma StepRefines(P: Primitives, volume: string, m: Mounted, tracked: set<nat>, op: Op)
    requires Lawful(P) && PacksAll(P) && Orderly(P, volume, m, tracked) && Legal(Abs(m.fs), op)
    requires CacheOk(m.fs) && CanServe(m.server.files, m.fs, op)
    ensures var (t, reply) := MountStep(P, volume, m, op);
            && CacheOk(t.fs) && (Abs(t.fs), reply) == PlainStep(Abs(m.fs), op) && (SizesOk(m.fs) ==> SizesOk(t.fs))
  {
    hide Lawful, PacksAll, NamesUnique, NamesOf, EditStep, Fetched, FlushStep, WriteAt, Resize, Slice, SameFiles,
      Served, StoredBytes, CacheOk, SizesOk, LookupChild, UnsyncedOf, CreateFresh, ServerReady, TreeOk, Linked,
      CatalogOk, Content, Fetchable, DirsOf;
    LegalParts(m.fs, op);
    match op {
      case Create(parent, name) => CreateEffect(P, volume, m, tracked, parent, name);
      case Write(ino, offset, data) =>
        ServesContent(P, m, ino);
        EditEffect(P, volume, m, tracked, ino, WriteAt(Served(m.server, m.fs, ino), Max(offset, 0), data));
      case SetSize(ino, size) =>
        ServesContent(P, m, ino);
        EditEffect(P, volume, m, tracked, ino, Resize(Served(m.server, m.fs, ino), size));
      case Read(ino, offset, size) =>
        ServesContent(P, m, ino);
        FileIsStored(m.server, m.fs, ino);
        FetchedEffect(P, volume, m, tracked, ino);
      case Fsync(ino) => FlushEffect(P, volume, m, tracked, ino);
      case Flush(ino) => FlushEffect(P, volume, m, tracked, ino);
      case Release(ino) => ReleaseEffect(P, volume, m, tracked, ino);
    }
  }

  /** The same files, directories, names and unwritten edits, whatever the bytes. */
  ghost predicate SameOutline(p: Plain, q: Plain) {
    && p.files.Keys == q.files.Keys && p.dirs == q.dirs && p.names == q.names
    && p.next == q.next && p.unsynced == q.unsynced
  }

  lemma OutlineLegal(p: Plain, q: Plain, op: Op)
    requires SameOutline(p, q)
    ensures (Legal(p, op) <==> Legal(q, op)) && Edits(p, op) == Edits(q, op)
  {
  }

  /** In outline the mount always follows the plain model. */
  lemma StepOutline(P: Primitives, volume: string, m: Mounted, tracked: set<nat>, op: Op, p: Plain)
    requires Lawful(P) && PacksAll(P) && Orderly(P, volume, m, tracked) && Legal(Abs(m.fs), op)
    requires SameOutline(Abs(m.fs), p)
    ensures SameOutline(Abs(MountStep(P, volume, m, op).0.fs), PlainStep(p, op).0)
  {
    hide Lawful, PacksAll, Orderly, NamesUnique, EditStep, Fetched, FlushStep, WriteAt, Resize, Slice, SameFiles,
      Served, StoredBytes, CacheOk, SizesOk, LookupChild, CreateFresh, Abs;
    LegalParts(m.fs, op);
    match op {
      case Create(parent, name) => CreateEffect(P, volume, m, tracked, parent, name);
      case Write(ino, offset, data) =>
        EditEffect(P, volume, m, tracked, ino, WriteAt(Served(m.server, m.fs, ino), Max(offset, 0), data));
      case SetSize(ino, size) =>
        EditEffect(P, volume, m, tracked, ino, Resize(Served(m.server, m.fs, ino), size));
      case Read(ino, offset, size) => FetchedEffect(P, volume, m, tracked, ino);
      case Fsync(ino) => FlushEffect(P, volume, m, tracked, ino);
      case Flush(ino) => FlushEffect(P, volume, m, tracked, ino);
      case Release(ino) => ReleaseEffect(P, volume, m, tracked, ino);
    }
  }

  lemma LegalParts(fs: Fs, op: Op)
    requires Legal(Abs(fs), op)
    ensures op.Create? ==> op.parent in fs.nodes && fs.nodes[op.parent].kind.Dir?
                           && (op.parent, op.name) !in NamesOf(fs.nodes) && '/' !in op.name
    ensures op.Write? || op.SetSize? ==> IsFile(fs, op.ino)
  {
  }

  // ---- Readability ----

  /** Writing the buffer of `ino` back now would register aligned terms. */
  ghost predicate StoresAligned(P: Primitives, m: Mounted, ino: nat) {
    Dirty(m.fs, ino) ==> Aligned(IngestRecord(P, m.server, m.fs.open[ino].buf).terms)
  }

  lemma FlushReadable(P: Primitives, volume: string, m: Mounted, tracked: set<nat>, ino: nat)
    requires Lawful(P) && Orderly(P, volume, m, tracked) && AllReadable(m.server.files, m.fs.nodes)
    ensures var t := FlushStep(P, volume, m, ino); AllReadable(t.server.files, t.fs.nodes) <==> StoresAligned(P, m, ino)
    ensures Storable(P, Abs(m.fs), ino) ==> StoresAligned(P, m, ino)
  {
    hide Lawful, ServerReady, ShapeOk, CatalogOk, AllReadable, FullPath, Ingested, IngestRecord, Aligned, Distinct;
    if Dirty(m.fs, ino) {
      assert InodeOk(m.server, m.fs, ino);
      hide Linked;
      ReadyIsOk(P, m.server);
      var buf := m.fs.open[ino].buf;
      var nodes' := Stored(m.fs, ino, FileHash(P.chunker(buf)), buf).nodes;
      IngestKeepsReadable(P, m.server, m.fs.nodes, nodes', ino, buf, (volume, FullPath(m.fs.nodes, ino)));
    }
  }

  /** From a readable mount, a request leaves a readable one if and only if what it writes back is
      registered with aligned terms; content without repeated chunks always is. */
  lemma StepReadable(P: Primitives, volume: string, m: Mounted, tracked: set<nat>, op: Op)
    requires Lawful(P) && Orderly(P, volume, m, tracked) && Legal(Abs(m.fs), op)
    requires AllReadable(m.server.files, m.fs.nodes)
    ensures var t := MountStep(P, volume, m, op).0;
            AllReadable(t.server.files, t.fs.nodes) <==>
            forall ino :: ino in WrittenBack(op) ==> StoresAligned(P, m, ino)
    ensures forall ino :: ino in WrittenBack(op) && Storable(P, Abs(m.fs), ino) ==> StoresAligned(P, m, ino)
  {
    hide Lawful, Orderly, AllReadable, FlushStep, StoresAligned, Served, StoredBytes, WriteAt, Resize, Slice,
      LookupChild, Storable, EditStep, CreateFresh, Abs;
    LegalParts(m.fs, op);
    match op {
      case Create(parent, name) =>
        CreateEffect(P, volume, m, tracked, parent, name);
        CreateReadable(P, volume, m, tracked, parent, name);
      case Write(ino, offset, data) =>
        EditReadable(m, ino, WriteAt(Served(m.server, m.fs, ino), Max(offset, 0), data));
      case SetSize(ino, size) => EditReadable(m, ino, Resize(Served(m.server, m.fs, ino), size));
      case Read(ino, offset, size) =>
      case Fsync(ino) => FlushReadable(P, volume, m, tracked, ino);
      case Flush(ino) => FlushReadable(P, volume, m, tracked, ino);
      case Release(ino) => FlushReadable(P, volume, m, tracked, ino);
    }
  }

  lemma EditReadable(m: Mounted, ino: nat, buf: Bytes)
    requires ino in m.fs.nodes
    ensures EditStep(m, ino, buf).server == m.server
    ensures AllReadable(m.server.files, EditStep(m, ino, buf).fs.nodes) <==> AllReadable(m.server.files, m.fs.nodes)
  {
    hide AllReadable, StoredBytes;
    SameHashesReadable(m.server.files, m.fs.nodes, EditStep(m, ino, buf).fs.nodes);
  }

  lemma CreateReadable(P: Primitives, volume: string, m: Mounted, tracked: set<nat>, parent: nat, name: string)
    requires Orderly(P, volume, m, tracked) && parent in m.fs.nodes && m.fs.nodes[parent].kind.Dir?
    ensures AllReadable(m.server.files, CreateFresh(m.fs, parent, name).nodes) <==>
            AllReadable(m.server.files, m.fs.nodes)
  {
    hide AllReadable, ServerReady, Linked, CatalogOk, TreeOk, SameFiles;
    CreateFreshShape(m.fs, parent, name);
    SameHashesReadable(m.server.files, m.fs.nodes, CreateFresh(m.fs, parent, name).nodes);
  }

  lemma ReadableServes(m: Mounted, op: Op)
    requires AllReadable(m.server.files, m.fs.nodes)
    ensures CanServe(m.server.files, m.fs, op)
  {
    hide Aligned;
  }

  // ---- What is shown, readable or not ----

  /** The plain files a reader of the mount sees now. */
  ghost function Seen(m: Mounted): Plain {
    Abs(m.fs).(files := map ino | ino in m.fs.nodes && m.fs.nodes[ino].kind.File? :: Served(m.server, m.fs, ino))
  }

  lemma FetchedServes(st: State, fs: Fs, ino: nat, i: nat)
    ensures Served(st, Fetched(st, fs, ino), i) == Served(st, fs, i)
  {
    hide Reassembled;
  }

  lemma EditServes(m: Mounted, ino: nat, buf: Bytes, i: nat)
    requires ino in m.fs.nodes
    ensures var t := EditStep(m, ino, buf);
            Served(t.server, t.fs, i) == if i == ino then buf else Served(m.server, m.fs, i)
  {
    hide Fetched, Reassembled;
    FetchedServes(m.server, m.fs, ino, i);
    FetchedNodes(m.server, m.fs, ino);
  }

  lemma FetchedNodes(st: State, fs: Fs, ino: nat)
    ensures Fetched(st, fs, ino).nodes == fs.nodes && Fetched(st, fs, ino).open == fs.open
  {
    hide StoredBytes;
  }

  lemma CreateServes(P: Primitives, volume: string, m: Mounted, tracked: set<nat>, parent: nat, name: string, i: nat)
    requires Orderly(P, volume, m, tracked) && parent in m.fs.nodes && m.fs.nodes[parent].kind.Dir? && i < m.fs.next + 1
    ensures var fs' := CreateFresh(m.fs, parent, name);
            Served(m.server, fs', i) == if i == m.fs.next then [] else Served(m.server, m.fs, i)
  {
    hide ServerReady, TreeOk, CatalogOk, Reassembled, SameFiles;
    CreateFreshShape(m.fs, parent, name);
  }

  lemma IngestedFiles(P: Primitives, st: State, bytes: Bytes, key: CatalogKey)
    requires Lawful(P) && Healthy(P, st)
    ensures Ingested(P, st, bytes, key).files == st.files[FileHash(P.chunker(bytes)) := IngestRecord(P, st, bytes)]
  {
    hide Lawful, Healthy, AfterUploads, IngestRecord;
    IngestOnlyAdds(P, st, bytes);
  }

  /** Another file that has neither buffer nor cached copy and carries the hash now being registered. */
  ghost predicate Reregistered(P: Primitives, m: Mounted, ino: nat, i: nat) {
    && Dirty(m.fs, ino) && i != ino && i !in m.fs.open && i !in m.fs.cache && i in m.fs.nodes
    && m.fs.nodes[i].fileHash == Some(FileHash(P.chunker(m.fs.open[ino].buf)))
  }

  lemma FlushServes(P: Primitives, volume: string, m: Mounted, tracked: set<nat>, ino: nat, i: nat)
    requires Lawful(P) && Orderly(P, volume, m, tracked) && !Reregistered(P, m, ino, i)
    ensures var t := FlushStep(P, volume, m, ino); Served(t.server, t.fs, i) == Served(m.server, m.fs, i)
  {
    hide Lawful, ServerReady, TreeOk, CatalogOk, Linked, Reassembled, FullPath, Ingested, IngestRecord;
    if Dirty(m.fs, ino) && ino in m.fs.nodes {
      ReadyIsOk(P, m.server);
      IngestedFiles(P, m.server, m.fs.open[ino].buf, (volume, FullPath(m.fs.nodes, ino)));
    }
  }

  /** What a request shows, readable or not: the answer is always that of the plain model on the files as
      they are seen.  What is seen then changes as in the plain model, except that a release shows the
      stored file in place of its buffer, and a write-back the new record in place of an older one of the
      same content. */
  lemma StepShows(P: Primitives, volume: string, m: Mounted, tracked: set<nat>, op: Op)
    requires Lawful(P) && PacksAll(P) && Orderly(P, volume, m, tracked) && Legal(Abs(m.fs), op)
    ensures MountStep(P, volume, m, op).1 == PlainStep(Seen(m), op).1
    ensures var t, q := MountStep(P, volume, m, op).0, PlainStep(Seen(m), op).0;
            && SameOutline(Seen(t), q)
            && forall i :: i in q.files ==>
                 Seen(t).files[i] == q.files[i] || op == Release(i)
                 || exists ino :: ino in WrittenBack(op) && Reregistered(P, m, ino, i)
  {
    hide Lawful, PacksAll, Orderly, MountStep, Served, Abs;
    SeenOutline(m);
    var t := MountStep(P, volume, m, op).0;
    StepOutline(P, volume, m, tracked, op, Seen(m));
    SeenOutline(t);
    ShowsReply(P, volume, m, tracked, op);
    var q := PlainStep(Seen(m), op).0;
    forall i | i in q.files
      ensures Seen(t).files[i] == q.files[i] || op == Release(i)
              || exists ino :: ino in WrittenBack(op) && Reregistered(P, m, ino, i)
    {
      ShowsFile(P, volume, m, tracked, op, i);
    }
  }

  lemma SeenOutline(m: Mounted)
    ensures SameOutline(Abs(m.fs), Seen(m))
  {
    hide Served, Content;
  }

  lemma ShowsReply(P: Primitives, volume: string, m: Mounted, tracked: set<nat>, op: Op)
    requires Orderly(P, volume, m, tracked) && Legal(Abs(m.fs), op)
    ensures MountStep(P, volume, m, op).1 == PlainStep(Seen(m), op).1
  {
    hide ServerReady, TreeOk, CatalogOk, Linked, Served, StoredBytes, WriteAt, Resize, Slice, FlushStep, EditStep,
      Fetched, CreateFresh, LookupChild, Content;
    LegalParts(m.fs, op);
    match op {
      case Create(parent, name) => LookupIsName(m.fs.nodes, m.fs.next, parent, name);
      case Read(ino, _, _) => FileIsStored(m.server, m.fs, ino);
      case _ =>
    }
  }

  lemma ShowsFile(P: Primitives, volume: string, m: Mounted, tracked: set<nat>, op: Op, i: nat)
    requires Lawful(P) && Orderly(P, volume, m, tracked) && Legal(Abs(m.fs), op)
    requires i in PlainStep(Seen(m), op).0.files && i in Seen(MountStep(P, volume, m, op).0).files
    ensures Seen(MountStep(P, volume, m, op).0).files[i] == PlainStep(Seen(m), op).0.files[i] || op == Release(i)
            || exists ino :: ino in WrittenBack(op) && Reregistered(P, m, ino, i)
  {
    hide Lawful, Orderly, Served, StoredBytes, WriteAt, Resize, Slice, FlushStep, EditStep, Fetched, CreateFresh,
      LookupChild, Content, Reregistered, NamesOf;
    LegalParts(m.fs, op);
    match op {
      case Create(parent, name) => ShowsCreated(P, volume, m, tracked, parent, name, i);
      case Write(ino, offset, data) =>
        EditServes(m, ino, WriteAt(Served(m.server, m.fs, ino), Max(offset, 0), data), i);
      case SetSize(ino, size) => EditServes(m, ino, Resize(Served(m.server, m.fs, ino), size), i);
      case Read(ino, _, _) => FetchedServes(m.server, m.fs, ino, i);
      case Fsync(ino) => if !Reregistered(P, m, ino, i) { FlushServes(P, volume, m, tracked, ino, i); }
      case Flush(ino) => if !Reregistered(P, m, ino, i) { FlushServes(P, volume, m, tracked, ino, i); }
      case Release(ino) =>
        if i != ino && !Reregistered(P, m, ino, i) {
          FlushServes(P, volume, m, tracked, ino, i);
          CloseServes(FlushStep(P, volume, m, ino), ino, i);
        }
    }
  }

  lemma CloseServes(m: Mounted, ino: nat, i: nat)
    requires i != ino
    ensures Served(m.server, Close(m.fs, ino), i) == Served(m.server, m.fs, i)
  {
    hide Reassembled;
  }

  lemma ShowsCreated(P: Primitives, volume: string, m: Mounted, tracked: set<nat>, parent: nat, name: string, i: nat)
    requires Orderly(P, volume, m, tracked) && parent in m.fs.nodes && m.fs.nodes[parent].kind.Dir?
    requires (parent, name) !in NamesOf(m.fs.nodes) && '/' !in name && (i == m.fs.next || i in Seen(m).files)
    ensures MountStep(P, volume, m, Create(parent, name)).0 == m.(fs := CreateFresh(m.fs, parent, name))
    ensures Served(m.server, CreateFresh(m.fs, parent, name), i) == if i == m.fs.next then [] else Seen(m).files[i]
  {
    hide ServerReady, TreeOk, CatalogOk, Linked, Served, LookupChild, CreateFresh, Content, NamesOf, SameFiles;
    LookupIsName(m.fs.nodes, m.fs.next, parent, name);
    if i in m.fs.nodes { InodesBelow(m.fs.nodes, m.fs.next); }
    CreateServes(P, volume, m, tracked, parent, name, i);
  }
}
