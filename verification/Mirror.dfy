/** How the catalog follows a mount.  Each file is listed under one path, found there or written back
    there, until a file that was found under another spelling of its path is written back. */
module Mirror {
  import opened Basics
  import opened XorbFormat
  import opened ServerModel
  import opened Agent
  import opened PlainFiles
  import opened InodeTree
  import opened TreeBuild
  import opened MountModel
  import opened MountSteps
  import opened MountRuns

  /** The spelling the mount gives a path: one leading slash. */
  predicate Canonical(path: string) {
    path == "/" + TrimStart(path)
  }

  /** The file is listed under `path`, up to leading slashes its own. */
  ghost predicate ListedUnder(st: State, volume: string, fs: Fs, i: nat, path: string) {
    IsFile(fs, i) && "/" + TrimStart(path) == FullPath(fs.nodes, i) && (volume, path) in st.catalog
  }

  /** `origin` says under which path of the volume's catalog a file is listed: every file that is not
      waiting to be written back is listed with its hash, and nothing else is listed. */
  ghost predicate Mirrors(st: State, volume: string, fs: Fs, origin: map<nat, string>) {
    && (forall i :: i in origin ==> ListedUnder(st, volume, fs, i, origin[i]))
    && (forall i :: IsFile(fs, i) && !Dirty(fs, i) ==>
          i in origin && fs.nodes[i].fileHash == Some(st.catalog[(volume, origin[i])]))
    && (forall path :: (volume, path) in st.catalog && TrimStart(path) != "" ==>
          exists i :: i in origin && origin[i] == path)
  }

  /** Every entry of the volume names a registered file. */
  ghost predicate Registered(st: State, volume: string) {
    forall path :: (volume, path) in st.catalog ==> st.catalog[(volume, path)] in st.files
  }

  /** Files can be told apart by their paths, and the paths are canonical. */
  ghost predicate PathsProper(fs: Fs) {
    ShapeOk(fs) && NamesUnique(fs.nodes) && (ROOT, "") !in NamesOf(fs.nodes)
  }

  // ---- Paths of files are canonical ----

  lemma {:induction false} FirstNameNotEmpty(nodes: Nodes, next: nat, ino: nat)
    requires TreeOk(nodes, next) && NamesUnique(nodes) && (ROOT, "") !in NamesOf(nodes) && ino in nodes && ino != ROOT
    ensures |Parts(nodes, ino)| > 0 && Parts(nodes, ino)[0] != ""
    decreases ino
  {
    assert NodeOk(nodes, next, ino);
    hide TreeOk, NamesUnique;
    if nodes[ino].parent == ROOT {
      assert (nodes[ino].parent, nodes[ino].name) in NamesOf(nodes);
    } else {
      FirstNameNotEmpty(nodes, next, nodes[ino].parent);
    }
  }

  lemma TrimsTo(parts: seq<string>)
    requires |parts| > 0 && parts[0] != "" && '/' !in parts[0]
    ensures TrimStart("/" + Join(parts)) == Join(parts) != ""
  {
    assert Join(parts)[0] == parts[0][0];
    assert ("/" + Join(parts))[1..] == Join(parts);
  }

  lemma RootIsDir(fs: Fs)
    requires ShapeOk(fs)
    ensures ROOT in fs.nodes && fs.nodes[ROOT].kind.Dir?
  {
  }

  lemma PathIsCanonical(fs: Fs, i: nat)
    requires PathsProper(fs) && IsFile(fs, i)
    ensures Canonical(FullPath(fs.nodes, i)) && TrimStart(FullPath(fs.nodes, i)) == Join(Parts(fs.nodes, i)) != ""
  {
    RootIsDir(fs);
    hide TrimStart, Join, TreeOk, NamesUnique, NamesOf;
    FirstNameNotEmpty(fs.nodes, fs.next, i);
    PartsHaveNoSlash(fs.nodes, fs.next, i);
    hide Parts;
    TrimsTo(Parts(fs.nodes, i));
  }

  /** An entry that is a file's path up to leading slashes has the file's names as its components. */
  lemma EntryParts(fs: Fs, i: nat, e: Entry)
    requires PathsProper(fs) && IsFile(fs, i) && "/" + TrimStart(e.path) == FullPath(fs.nodes, i)
    ensures Named(e) && Comps(e) == Parts(fs.nodes, i)
  {
    RootIsDir(fs);
    hide TrimStart, Join, Split, NamesOf, NamesUnique, TreeOk;
    PathIsCanonical(fs, i);
    PartsHaveNoSlash(fs.nodes, fs.next, i);
    hide Parts;
    assert TrimStart(e.path) == ("/" + TrimStart(e.path))[1..];
    assert FullPath(fs.nodes, i)[1..] == Join(Parts(fs.nodes, i));
    SplitJoin(Parts(fs.nodes, i));
  }

  lemma OnePath(fs: Fs, a: nat, b: nat)
    requires PathsProper(fs) && IsFile(fs, a) && IsFile(fs, b) && FullPath(fs.nodes, a) == FullPath(fs.nodes, b)
    ensures a == b
  {
    hide TreeOk, NamesUnique, FullPath, NamesOf;
    UniqueAlone(fs, a);
  }

  // ---- One step ----

  /** A change that writes nothing back keeps the mirror. */
  lemma MirrorsFrame(st: State, volume: string, fs: Fs, fs': Fs, origin: map<nat, string>)
    requires Mirrors(st, volume, fs, origin) && SameFiles(fs.nodes, fs'.nodes)
    requires forall i :: IsFile(fs', i) && !Dirty(fs', i) ==>
               IsFile(fs, i) && !Dirty(fs, i) && fs'.nodes[i].fileHash == fs.nodes[i].fileHash
    ensures Mirrors(st, volume, fs', origin)
  {
    hide FullPath, TrimStart;
    forall i | i in origin
      ensures ListedUnder(st, volume, fs', i, origin[i])
    {
      assert ListedUnder(st, volume, fs, i, origin[i]);
    }
    forall i | IsFile(fs', i) && !Dirty(fs', i)
      ensures i in origin && fs'.nodes[i].fileHash == Some(st.catalog[(volume, origin[i])])
    {
      assert ListedUnder(st, volume, fs, i, origin[i]);
    }
  }

  /** A write-back under the path the file was found under keeps it. */
  lemma MirrorsStored(
    st: State, st': State, volume: string, fs: Fs, origin: map<nat, string>, ino: nat, fh: FileHash, buf: Bytes)
    requires Mirrors(st, volume, fs, origin) && PathsProper(fs) && IsFile(fs, ino)
    requires st'.catalog == st.catalog[(volume, FullPath(fs.nodes, ino)) := fh]
    requires ino in origin ==> Canonical(origin[ino])
    ensures Mirrors(st', volume, Stored(fs, ino, fh, buf), origin[ino := FullPath(fs.nodes, ino)])
  {
    hide FullPath, TrimStart, TreeOk, NamesUnique, NamesOf, SameFiles, DirsOf;
    var fs', path, origin' := Stored(fs, ino, fh, buf), FullPath(fs.nodes, ino), origin[ino := FullPath(fs.nodes, ino)];
    SetNodeShape(fs, ino, Some(fh), |buf|);
    PathIsCanonical(fs, ino);
    if ino in origin { assert ListedUnder(st, volume, fs, ino, origin[ino]); }
    forall i | IsFile(fs, i)
      ensures FullPath(fs'.nodes, i) == FullPath(fs.nodes, i)
    {
      PathOfFile(fs.nodes, fs'.nodes, i);
    }
    forall i | i in origin'
      ensures ListedUnder(st', volume, fs', i, origin'[i]) && (i != ino ==> origin'[i] != path)
    {
      if i != ino {
        assert ListedUnder(st, volume, fs, i, origin[i]);
        if origin[i] == path { OnePath(fs, i, ino); }
      }
    }
    forall q | (volume, q) in st'.catalog && TrimStart(q) != ""
      ensures exists i :: i in origin' && origin'[i] == q
    {
      if q == path {
        assert origin'[ino] == q;
      } else {
        var i :| i in origin && origin[i] == q;
        assert origin'[i] == q;
      }
    }
  }

  /** The file a request writes back. */
  ghost function WritesBack(m: Mounted, op: Op): set<nat> {
    set ino | ino in WrittenBack(op) && Dirty(m.fs, ino)
  }

  lemma IngestedCatalog(P: Primitives, st: State, bytes: Bytes, key: CatalogKey)
    requires Lawful(P) && Healthy(P, st)
    ensures Ingested(P, st, bytes, key).catalog == st.catalog[key := FileHash(P.chunker(bytes))]
  {
    hide Lawful, Healthy, AfterUploads, IngestRecord;
    IngestOnlyAdds(P, st, bytes);
  }

  lemma FlushMirrors(
    P: Primitives, volume: string, m: Mounted, tracked: set<nat>, ino: nat, origin: map<nat, string>)
    returns (origin': map<nat, string>)
    requires Lawful(P) && Orderly(P, volume, m, tracked) && PathsProper(m.fs) && Mirrors(m.server, volume, m.fs, origin)
    requires Dirty(m.fs, ino) && ino in origin ==> Canonical(origin[ino])
    ensures var t := FlushStep(P, volume, m, ino); Mirrors(t.server, volume, t.fs, origin')
    ensures origin' == if Dirty(m.fs, ino) then origin[ino := FullPath(m.fs.nodes, ino)] else origin
    ensures Dirty(m.fs, ino) ==> Canonical(FullPath(m.fs.nodes, ino))
  {
    hide Lawful, ServerReady, TreeOk, CatalogOk, Mirrors, FullPath, Ingested, NamesUnique, NamesOf, Canonical, Stored;
    origin' := origin;
    if Dirty(m.fs, ino) {
      assert InodeOk(m.server, m.fs, ino);
      hide Linked;
      var buf := m.fs.open[ino].buf;
      ReadyIsOk(P, m.server);
      IngestedCatalog(P, m.server, buf, (volume, FullPath(m.fs.nodes, ino)));
      PathIsCanonical(m.fs, ino);
      origin' := origin[ino := FullPath(m.fs.nodes, ino)];
      var t := FlushStep(P, volume, m, ino);
      MirrorsStored(m.server, t.server, volume, m.fs, origin, ino, FileHash(P.chunker(buf)), buf);
    }
  }

  /** Clean files of the new state were clean files with the same hash before. */
  ghost predicate CleanBefore(fs: Fs, fs': Fs) {
    forall i :: IsFile(fs', i) && !Dirty(fs', i) ==>
      IsFile(fs, i) && !Dirty(fs, i) && fs'.nodes[i].fileHash == fs.nodes[i].fileHash
  }

  lemma EditCleanBefore(m: Mounted, ino: nat, buf: Bytes)
    requires ino in m.fs.nodes
    ensures CleanBefore(m.fs, EditStep(m, ino, buf).fs) && EditStep(m, ino, buf).server == m.server
  {
    hide StoredBytes;
  }

  lemma CreateCleanBefore(fs: Fs, parent: nat, name: string)
    requires ShapeOk(fs) && parent in fs.nodes && fs.nodes[parent].kind.Dir?
    ensures CleanBefore(fs, CreateFresh(fs, parent, name))
  {
    hide TreeOk, SameFiles;
    CreateFreshShape(fs, parent, name);
  }

  lemma StepPathsProper(P: Primitives, volume: string, m: Mounted, tracked: set<nat>, op: Op)
    requires Lawful(P) && PacksAll(P) && Orderly(P, volume, m, tracked) && Legal(Abs(m.fs), op) && PathsProper(m.fs)
    requires op != Create(ROOT, "")
    ensures var t := MountStep(P, volume, m, op).0; PathsProper(t.fs) && SameFiles(m.fs.nodes, t.fs.nodes)
  {
    hide Lawful, PacksAll, MountStep, NamesUnique, TreeOk, NamesOf, SameFiles, Linked, CatalogOk, ServerReady,
      WriteAt, Resize, DirsOf, FilesOf, UnsyncedOf;
    StepOrderly(P, volume, m, tracked, op);
    assert SameOutline(Abs(m.fs), Abs(m.fs));
    StepOutline(P, volume, m, tracked, op, Abs(m.fs));
  }

  /** One request, none of whose write-backs is of a file found under another spelling. */
  lemma StepMirrors(
    P: Primitives, volume: string, m: Mounted, tracked: set<nat>, op: Op, origin: map<nat, string>)
    returns (origin': map<nat, string>)
    requires Lawful(P) && PacksAll(P) && Orderly(P, volume, m, tracked) && Legal(Abs(m.fs), op)
    requires PathsProper(m.fs) && Mirrors(m.server, volume, m.fs, origin) && op != Create(ROOT, "")
    requires forall i :: i in WritesBack(m, op) && i in origin ==> Canonical(origin[i])
    ensures var t := MountStep(P, volume, m, op).0; Mirrors(t.server, volume, t.fs, origin')
    ensures origin'.Keys == origin.Keys + WritesBack(m, op)
    ensures forall i :: i in origin' ==>
              if i in WritesBack(m, op) then Canonical(origin'[i]) else origin'[i] == origin[i]
  {
    hide Lawful, PacksAll, Orderly, NamesUnique, TreeOk, NamesOf, SameFiles, Mirrors, FlushStep, EditStep, Fetched,
      WriteAt, Resize, Slice, Canonical, Served, StoredBytes, CreateFresh, LookupChild, Abs, Legal, FullPath,
      CleanBefore, CacheOk, SizesOk, Fetchable;
    StepPathsProper(P, volume, m, tracked, op);
    LegalParts(m.fs, op);
    var t := MountStep(P, volume, m, op).0;
    origin' := origin;
    match op {
      case Create(parent, name) =>
        CreateEffect(P, volume, m, tracked, parent, name);
        CreateCleanBefore(m.fs, parent, name);
        CleanMirrors(m.server, volume, m.fs, t.fs, origin);
      case Write(ino, offset, data) =>
        EditCleanBefore(m, ino, WriteAt(Served(m.server, m.fs, ino), Max(offset, 0), data));
        CleanMirrors(m.server, volume, m.fs, t.fs, origin);
      case SetSize(ino, size) =>
        EditCleanBefore(m, ino, Resize(Served(m.server, m.fs, ino), size));
        CleanMirrors(m.server, volume, m.fs, t.fs, origin);
      case Read(ino, _, _) =>
        assert CleanBefore(m.fs, t.fs) by { FetchedCleanBefore(m.server, m.fs, ino); }
        CleanMirrors(m.server, volume, m.fs, t.fs, origin);
      case Fsync(ino) => origin' := FlushMirrors(P, volume, m, tracked, ino, origin);
      case Flush(ino) => origin' := FlushMirrors(P, volume, m, tracked, ino, origin);
      case Release(ino) =>
        origin' := FlushMirrors(P, volume, m, tracked, ino, origin);
        var u := FlushStep(P, volume, m, ino);
        assert !Dirty(u.fs, ino) by { FlushEffect(P, volume, m, tracked, ino); }
        assert CleanBefore(u.fs, t.fs) by { CloseCleanBefore(u.fs, ino); }
        SameFilesRefl(u.fs.nodes);
        CleanMirrors(u.server, volume, u.fs, t.fs, origin');
    }
  }

  lemma CleanMirrors(st: State, volume: string, fs: Fs, fs': Fs, origin: map<nat, string>)
    requires Mirrors(st, volume, fs, origin) && SameFiles(fs.nodes, fs'.nodes) && CleanBefore(fs, fs')
    ensures Mirrors(st, volume, fs', origin)
  {
    hide Mirrors, SameFiles;
    MirrorsFrame(st, volume, fs, fs', origin);
  }

  lemma FetchedCleanBefore(st: State, fs: Fs, ino: nat)
    ensures CleanBefore(fs, Fetched(st, fs, ino))
  {
    hide StoredBytes;
  }

  lemma CloseCleanBefore(fs: Fs, ino: nat)
    requires !Dirty(fs, ino)
    ensures CleanBefore(fs, Close(fs, ino))
  {
  }

  // ---- Whole runs ----

  /** The files a run writes back. */
  ghost function WrittenFiles(P: Primitives, volume: string, m: Mounted, ops: seq<Op>): set<nat> {
    if |ops| == 0 then {} else
    var init := ops[..|ops| - 1];
    WrittenFiles(P, volume, m, init) + WritesBack(MountRun(P, volume, m, init).0, ops[|ops| - 1])
  }

  lemma WrittenStep(P: Primitives, volume: string, m: Mounted, ops: seq<Op>, n: nat)
    requires n < |ops|
    ensures WrittenFiles(P, volume, m, ops[..n + 1])
         == WrittenFiles(P, volume, m, ops[..n]) + WritesBack(After(P, volume, m, ops, n), ops[n])
  {
    hide WritesBack, MountRun;
    assert ops[..n + 1][..n] == ops[..n];
  }

  /** No file found under another spelling of its path is among the written ones. */
  ghost predicate SpeltRight(origin: map<nat, string>, written: set<nat>) {
    forall i :: i in written && i in origin ==> Canonical(origin[i])
  }

  lemma RunPathsProper(P: Primitives, volume: string, m: Mounted, tracked: set<nat>, ops: seq<Op>, n: nat)
    requires Lawful(P) && PacksAll(P) && Orderly(P, volume, m, tracked) && LegalRun(Abs(m.fs), ops) && n <= |ops|
    requires PathsProper(m.fs) && Create(ROOT, "") !in ops
    ensures PathsProper(After(P, volume, m, ops, n).fs)
  {
    hide Lawful, PacksAll, MountRun, NamesUnique, TreeOk, NamesOf, SameFiles, Linked, CatalogOk, ServerReady,
      PlainRun, RunEdits, LegalRun, DirsOf, FilesOf, UnsyncedOf, Legal;
    RunOrderly(P, volume, m, tracked, ops, n);
    assert Create(ROOT, "") !in ops[..n];
    RunNames(Abs(m.fs), ops[..n], ROOT, "");
  }

  lemma {:induction false} RunMirrors(
    P: Primitives, volume: string, m: Mounted, tracked: set<nat>, ops: seq<Op>, origin: map<nat, string>, n: nat)
    returns (origin': map<nat, string>)
    requires Lawful(P) && PacksAll(P) && Orderly(P, volume, m, tracked) && LegalRun(Abs(m.fs), ops) && n <= |ops|
    requires PathsProper(m.fs) && Create(ROOT, "") !in ops && Mirrors(m.server, volume, m.fs, origin)
    requires SpeltRight(origin, WrittenFiles(P, volume, m, ops[..n]))
    ensures var t := After(P, volume, m, ops, n); Mirrors(t.server, volume, t.fs, origin')
    ensures origin'.Keys == origin.Keys + WrittenFiles(P, volume, m, ops[..n])
    ensures forall i :: i in origin' ==>
              if i in WrittenFiles(P, volume, m, ops[..n]) then Canonical(origin'[i]) else origin'[i] == origin[i]
  {
    hide Lawful, PacksAll, Orderly, MountRun, MountStep, Mirrors, PathsProper, LegalRun, Legal, Abs, Canonical,
      WritesBack, NamesUnique, SameFiles, SameOutline, PlainRun, RunEdits, WrittenFiles, After;
    AfterEnds(P, volume, m, ops);
    origin' := origin;
    if n == 0 {
      NothingWritten(P, volume, m, ops);
    } else {
      WrittenStep(P, volume, m, ops, n - 1);
      var before := RunMirrors(P, volume, m, tracked, ops, origin, n - 1);
      RunOrderly(P, volume, m, tracked, ops, n - 1);
      RunPathsProper(P, volume, m, tracked, ops, n - 1);
      AfterStep(P, volume, m, ops, n - 1);
      var t := After(P, volume, m, ops, n - 1);
      assert ops[n - 1] in ops;
      origin' := StepMirrors(P, volume, t, tracked + RunEdits(Abs(m.fs), ops[..n - 1]), ops[n - 1], before);
    }
  }

  lemma NothingWritten(P: Primitives, volume: string, m: Mounted, ops: seq<Op>)
    ensures WrittenFiles(P, volume, m, ops[..0]) == {}
  {
  }

  // ---- Entries are never taken away ----

  ghost predicate CatalogGrows(st: State, st': State, volume: string) {
    st.catalog.Keys <= st'.catalog.Keys && (Registered(st, volume) ==> Registered(st', volume))
  }

  lemma FlushGrows(P: Primitives, volume: string, m: Mounted, tracked: set<nat>, ino: nat)
    requires Lawful(P) && Orderly(P, volume, m, tracked)
    ensures CatalogGrows(m.server, FlushStep(P, volume, m, ino).server, volume)
  {
    hide Lawful, ServerReady, TreeOk, CatalogOk, Linked, FullPath, Ingested, IngestRecord;
    if Dirty(m.fs, ino) && ino in m.fs.nodes {
      ReadyIsOk(P, m.server);
      var buf, key := m.fs.open[ino].buf, (volume, FullPath(m.fs.nodes, ino));
      IngestedCatalog(P, m.server, buf, key);
      IngestedFiles(P, m.server, buf, key);
    }
  }

  lemma StepGrows(P: Primitives, volume: string, m: Mounted, tracked: set<nat>, op: Op)
    requires Lawful(P) && PacksAll(P) && Orderly(P, volume, m, tracked) && Legal(Abs(m.fs), op)
    ensures var t := MountStep(P, volume, m, op).0;
            && CatalogGrows(m.server, t.server, volume)
            && forall i :: i in WritesBack(m, op) ==>
                 IsFile(t.fs, i) && (volume, FullPath(t.fs.nodes, i)) in t.server.catalog
  {
    hide Lawful, PacksAll, Orderly, FlushStep, EditStep, Fetched, WriteAt, Resize, Slice, Served, StoredBytes,
      LookupChild, Abs, Legal, FullPath, Registered, CacheOk, SizesOk, NamesUnique, SameFiles;
    LegalParts(m.fs, op);
    match op {
      case Write(ino, offset, data) =>
        EditCleanBefore(m, ino, WriteAt(Served(m.server, m.fs, ino), Max(offset, 0), data));
      case SetSize(ino, size) => EditCleanBefore(m, ino, Resize(Served(m.server, m.fs, ino), size));
      case Fsync(ino) =>
        FlushEffect(P, volume, m, tracked, ino);
        FlushGrows(P, volume, m, tracked, ino);
      case Flush(ino) =>
        FlushEffect(P, volume, m, tracked, ino);
        FlushGrows(P, volume, m, tracked, ino);
      case Release(ino) =>
        FlushEffect(P, volume, m, tracked, ino);
        FlushGrows(P, volume, m, tracked, ino);
      case _ =>
    }
  }

  /** Along a run entries are only added or replaced, and every file written back has one under its path. */
  lemma {:induction false} RunGrows(P: Primitives, volume: string, m: Mounted, tracked: set<nat>, ops: seq<Op>, n: nat)
    requires Lawful(P) && PacksAll(P) && Orderly(P, volume, m, tracked) && LegalRun(Abs(m.fs), ops) && n <= |ops|
    ensures var t := After(P, volume, m, ops, n);
            && CatalogGrows(m.server, t.server, volume)
            && forall i :: i in WrittenFiles(P, volume, m, ops[..n]) ==>
                 IsFile(t.fs, i) && (volume, FullPath(t.fs.nodes, i)) in t.server.catalog
  {
    hide Lawful, PacksAll, Orderly, MountRun, MountStep, LegalRun, Legal, Abs, WritesBack, NamesUnique, SameFiles,
      SameOutline, PlainRun, RunEdits, WrittenFiles, After, FullPath, Registered;
    AfterEnds(P, volume, m, ops);
    if n == 0 {
      NothingWritten(P, volume, m, ops);
    } else {
      WrittenStep(P, volume, m, ops, n - 1);
      RunGrows(P, volume, m, tracked, ops, n - 1);
      RunOrderly(P, volume, m, tracked, ops, n - 1);
      AfterStep(P, volume, m, ops, n - 1);
      var t, tracked' := After(P, volume, m, ops, n - 1), tracked + RunEdits(Abs(m.fs), ops[..n - 1]);
      StepGrows(P, volume, t, tracked', ops[n - 1]);
      StepOrderly(P, volume, t, tracked', ops[n - 1]);
      forall i | i in WrittenFiles(P, volume, m, ops[..n - 1])
        ensures var u := After(P, volume, m, ops, n);
                IsFile(u.fs, i) && (volume, FullPath(u.fs.nodes, i)) in u.server.catalog
      {
        PathOfFile(t.fs.nodes, After(P, volume, m, ops, n).fs.nodes, i);
      }
    }
  }
}
