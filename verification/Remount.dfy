/** Mounting a volume again: what the server's listing gives back after any run of requests, what the
    new mount then shows, and which spelling of a path spoils it. */
module Remount {
  import opened Basics
  import opened XorbFormat
  import opened ServerModel
  import opened Planner
  import opened Reading
  import opened Xetd
  import opened PlainFiles
  import opened InodeTree
  import opened TreeBuild
  import opened MountModel
  import opened MountSteps
  import opened MountRuns
  import opened Mirror
  import opened Xetfs

  /** `entries` lists the volume's part of the catalog, each path once. */
  ghost predicate ListsVolume(st: State, volume: string, entries: seq<Entry>) {
    && (forall k :: 0 <= k < |entries| ==>
          (volume, entries[k].path) in st.catalog && st.catalog[(volume, entries[k].path)] == entries[k].fileHash)
    && (forall path :: (volume, path) in st.catalog ==> exists k :: 0 <= k < |entries| && entries[k].path == path)
    && (forall j, k :: 0 <= j < k < |entries| ==> entries[j].path != entries[k].path)
  }

  /** The size a listing shows. */
  function ListedSize(files: map<FileHash, FileRecord>, fh: FileHash): nat {
    if fh in files then files[fh].totalSize else 0
  }

  /** The server's listing of a volume, in whatever order the catalog yields it. */
  method ListEntries(server: Server, volume: string) returns (entries: seq<Entry>)
    ensures ListsVolume(server.View(), volume, entries)
    ensures forall k :: 0 <= k < |entries| ==> entries[k].size == ListedSize(server.files, entries[k].fileHash)
    ensures forall k :: 0 <= k < |entries| && entries[k].fileHash !in server.files ==> entries[k].size == 0
  {
    entries := [];
    var todo := server.catalog.Keys;
    while todo != {}
      invariant todo <= server.catalog.Keys
      invariant forall k :: 0 <= k < |entries| ==>
        && (volume, entries[k].path) in server.catalog.Keys - todo
        && server.catalog[(volume, entries[k].path)] == entries[k].fileHash
        && entries[k].size == ListedSize(server.files, entries[k].fileHash)
      invariant forall path :: (volume, path) in server.catalog && (volume, path) !in todo ==>
        exists k :: 0 <= k < |entries| && entries[k].path == path
      invariant forall j, k :: 0 <= j < k < |entries| ==> entries[j].path != entries[k].path
      decreases todo
    {
      var key :| key in todo;
      ghost var before := entries;
      if key.0 == volume {
        var fh := server.catalog[key];
        entries := entries + [Entry(key.1, fh, ListedSize(server.files, fh))];
        assert entries[|entries| - 1].path == key.1;
      }
      forall path | (volume, path) in server.catalog && (volume, path) !in todo
        ensures exists k :: 0 <= k < |entries| && entries[k].path == path
      {
        var k :| 0 <= k < |before| && before[k].path == path;
        assert entries[k].path == path;
      }
      todo := todo - {key};
    }
  }

  ghost predicate HasPath(nodes: Nodes, path: string) {
    exists i :: i in nodes && nodes[i].kind.File? && FullPath(nodes, i) == path
  }

  /** The same paths, with the same hashes under them. */
  ghost predicate SameVolume(fs: Fs, fs': Fs) {
    && (forall path :: HasPath(fs.nodes, path) <==> HasPath(fs'.nodes, path))
    && (forall i, j :: IsFile(fs, i) && IsFile(fs', j) && FullPath(fs.nodes, i) == FullPath(fs'.nodes, j) ==>
          fs.nodes[i].fileHash == fs'.nodes[j].fileHash && fs.nodes[i].fileHash.Some?)
  }

  // ---- From the listing back to the files ----

  /** Nothing is waiting to be written back, and the catalog mirrors the mount. */
  ghost predicate Settled(st: State, volume: string, fs: Fs, origin: map<nat, string>) {
    PathsProper(fs) && Mirrors(st, volume, fs, origin) && forall i :: !Dirty(fs, i)
  }

  /** The file a named entry of the listing stands for. */
  lemma FileOfEntry(st: State, volume: string, fs: Fs, origin: map<nat, string>, entries: seq<Entry>, k: nat)
    returns (i: nat)
    requires PathsProper(fs) && Mirrors(st, volume, fs, origin) && ListsVolume(st, volume, entries)
    requires k < |entries| && Named(entries[k])
    ensures i in origin && origin[i] == entries[k].path && IsFile(fs, i) && Comps(entries[k]) == Parts(fs.nodes, i)
    ensures FullPath(fs.nodes, i) == "/" + TrimStart(entries[k].path)
    ensures !Dirty(fs, i) ==> fs.nodes[i].fileHash == Some(entries[k].fileHash)
  {
    hide FullPath, TrimStart, Split, NamesUnique, TreeOk, NamesOf, Parts;
    i :| i in origin && origin[i] == entries[k].path;
    assert ListedUnder(st, volume, fs, i, origin[i]);
    EntryParts(fs, i, entries[k]);
  }

  /** The entry of a settled file. */
  lemma EntryOfFile(st: State, volume: string, fs: Fs, origin: map<nat, string>, entries: seq<Entry>, i: nat)
    returns (k: nat)
    requires Settled(st, volume, fs, origin) && ListsVolume(st, volume, entries) && IsFile(fs, i)
    ensures k < |entries| && Named(entries[k]) && FullPath(fs.nodes, i) == "/" + TrimStart(entries[k].path)
    ensures fs.nodes[i].fileHash == Some(entries[k].fileHash)
  {
    hide FullPath, TrimStart, Split, NamesUnique, TreeOk, NamesOf, Comps;
    assert ListedUnder(st, volume, fs, i, origin[i]);
    k :| 0 <= k < |entries| && entries[k].path == origin[i];
    EntryParts(fs, i, entries[k]);
  }

  /** A mirrored catalog is listed without one path being a prefix of another. */
  lemma ListingPrefixFree(st: State, volume: string, fs: Fs, origin: map<nat, string>, entries: seq<Entry>)
    requires PathsProper(fs) && Mirrors(st, volume, fs, origin) && ListsVolume(st, volume, entries)
    ensures PrefixFree(entries)
  {
    hide Mirrors, NamesUnique, TreeOk, NamesOf, Comps, Named, FullPath, Parts, TrimStart;
    forall j, k | 0 <= j < |entries| && 0 <= k < |entries| && j != k && Named(entries[j]) && Named(entries[k])
      ensures !(Comps(entries[j]) <= Comps(entries[k]))
    {
      if Comps(entries[j]) <= Comps(entries[k]) {
        var a := FileOfEntry(st, volume, fs, origin, entries, j);
        var b := FileOfEntry(st, volume, fs, origin, entries, k);
        if Parts(fs.nodes, a) == Parts(fs.nodes, b) {
          PartsInjective(fs.nodes, fs.next, a, b);
        } else {
          var dir := AncestorAt(fs.nodes, fs.next, b, Parts(fs.nodes, a));
          PartsInjective(fs.nodes, fs.next, a, dir);
        }
      }
    }
  }

  /** Two spellings of one path are never listed so. */
  lemma TwoSpellings(st: State, volume: string, entries: seq<Entry>, p: string, q: string)
    requires ListsVolume(st, volume, entries) && (volume, p) in st.catalog && (volume, q) in st.catalog
    requires p != q && TrimStart(p) == TrimStart(q) != ""
    ensures !PrefixFree(entries)
  {
    hide TrimStart, Split;
    var j :| 0 <= j < |entries| && entries[j].path == p;
    var k :| 0 <= k < |entries| && entries[k].path == q;
    assert Comps(entries[j]) <= Comps(entries[k]);
  }

  /** After any run, the volume is listed without one path being a prefix of another if and only if the
      run has written back no file that was found under another spelling of its path. */
  lemma PrefixFreeExactly(
    P: Primitives, volume: string, m: Mounted, tracked: set<nat>, ops: seq<Op>, origin: map<nat, string>,
    entries: seq<Entry>)
    requires Lawful(P) && PacksAll(P) && Orderly(P, volume, m, tracked) && LegalRun(Abs(m.fs), ops)
    requires PathsProper(m.fs) && Create(ROOT, "") !in ops && Mirrors(m.server, volume, m.fs, origin)
    requires ListsVolume(MountRun(P, volume, m, ops).0.server, volume, entries)
    ensures PrefixFree(entries) <==> SpeltRight(origin, WrittenFiles(P, volume, m, ops))
  {
    hide Lawful, PacksAll, Orderly, LegalRun, PathsProper, Mirrors, MountRun, WrittenFiles, ListsVolume, PrefixFree,
      Abs, TrimStart, FullPath, Registered, NamesUnique, SameFiles, SameOutline, PlainRun, RunEdits, Legal;
    assert ops[..|ops|] == ops;
    var t := MountRun(P, volume, m, ops).0;
    RunPathsProper(P, volume, m, tracked, ops, |ops|);
    if SpeltRight(origin, WrittenFiles(P, volume, m, ops)) {
      var origin' := RunMirrors(P, volume, m, tracked, ops, origin, |ops|);
      ListingPrefixFree(t.server, volume, t.fs, origin', entries);
    } else {
      var i :| i in WrittenFiles(P, volume, m, ops) && i in origin && !Canonical(origin[i]);
      RunGrows(P, volume, m, tracked, ops, |ops|);
      RunOrderly(P, volume, m, tracked, ops, |ops|);
      MirroredUnder(m.server, volume, m.fs, origin, i);
      PathOfFile(m.fs.nodes, t.fs.nodes, i);
      PathIsCanonical(t.fs, i);
      TrimOf(origin[i], FullPath(t.fs.nodes, i));
      TwoSpellings(t.server, volume, entries, origin[i], FullPath(t.fs.nodes, i));
    }
  }

  lemma MirroredUnder(st: State, volume: string, fs: Fs, origin: map<nat, string>, i: nat)
    requires Mirrors(st, volume, fs, origin) && i in origin
    ensures ListedUnder(st, volume, fs, i, origin[i])
  {
  }

  lemma TrimOf(path: string, full: string)
    requires "/" + TrimStart(path) == full
    ensures TrimStart(path) == TrimStart(full)
  {
    assert full[0] == '/' && full[1..] == TrimStart(path);
    assert TrimStart(TrimStart(path)) == TrimStart(path);
  }

  // ---- What the new mount shows ----

  lemma RemountedPath(
    st: State, volume: string, fs: Fs, origin: map<nat, string>, entries: seq<Entry>, fs': Fs, leaf: map<nat, nat>,
    path: string)
    requires Settled(st, volume, fs, origin) && ListsVolume(st, volume, entries) && MountedAs(fs', entries, leaf)
    ensures HasPath(fs.nodes, path) <==> HasPath(fs'.nodes, path)
  {
    hide PathsProper, Mirrors, ListsVolume, FullPath, HashBytes, Named, Comps, TrimStart, Content, Parts;
    if HasPath(fs.nodes, path) {
      var i :| i in fs.nodes && fs.nodes[i].kind.File? && FullPath(fs.nodes, i) == path;
      var k := EntryOfFile(st, volume, fs, origin, entries, i);
      assert LeafMounted(fs', entries[k], leaf[k]);
    }
    if HasPath(fs'.nodes, path) {
      var j :| j in fs'.nodes && fs'.nodes[j].kind.File? && FullPath(fs'.nodes, j) == path;
      var k :| k in leaf && leaf[k] == j;
      assert LeafMounted(fs', entries[k], j);
      var i := FileOfEntry(st, volume, fs, origin, entries, k);
      assert FullPath(fs.nodes, i) == path;
    }
  }

  lemma RemountedHash(
    st: State, volume: string, fs: Fs, origin: map<nat, string>, entries: seq<Entry>, fs': Fs, leaf: map<nat, nat>,
    i: nat, j: nat)
    requires Settled(st, volume, fs, origin) && ListsVolume(st, volume, entries) && MountedAs(fs', entries, leaf)
    requires IsFile(fs, i) && IsFile(fs', j) && FullPath(fs.nodes, i) == FullPath(fs'.nodes, j)
    ensures fs.nodes[i].fileHash == fs'.nodes[j].fileHash && fs.nodes[i].fileHash.Some?
  {
    hide PathsProper, Mirrors, ListsVolume, FullPath, HashBytes, Named, Comps, TrimStart, Content, Parts;
    var k :| k in leaf && leaf[k] == j;
    assert LeafMounted(fs', entries[k], j);
    var a := FileOfEntry(st, volume, fs, origin, entries, k);
    OnePath(fs, a, i);
  }

  /** A mount built from the listing of a settled mount has the same paths with the same hashes. */
  lemma RemountShowsSame(
    st: State, volume: string, fs: Fs, origin: map<nat, string>, entries: seq<Entry>, fs': Fs, leaf: map<nat, nat>)
    requires Settled(st, volume, fs, origin) && ListsVolume(st, volume, entries) && MountedAs(fs', entries, leaf)
    ensures SameVolume(fs, fs')
  {
    hide Settled, ListsVolume, MountedAs, FullPath;
    forall path
      ensures HasPath(fs.nodes, path) <==> HasPath(fs'.nodes, path)
    {
      RemountedPath(st, volume, fs, origin, entries, fs', leaf, path);
    }
    forall i, j | IsFile(fs, i) && IsFile(fs', j) && FullPath(fs.nodes, i) == FullPath(fs'.nodes, j)
      ensures fs.nodes[i].fileHash == fs'.nodes[j].fileHash && fs.nodes[i].fileHash.Some?
    {
      RemountedHash(st, volume, fs, origin, entries, fs', leaf, i, j);
    }
  }

  lemma Counterpart(fs: Fs, fs': Fs, i: nat) returns (j: nat)
    requires SameVolume(fs, fs') && IsFile(fs, i)
    ensures IsFile(fs', j) && FullPath(fs'.nodes, j) == FullPath(fs.nodes, i)
    ensures fs'.nodes[j].fileHash == fs.nodes[i].fileHash
  {
    hide FullPath;
    assert HasPath(fs.nodes, FullPath(fs.nodes, i));
    j :| j in fs'.nodes && fs'.nodes[j].kind.File? && FullPath(fs'.nodes, j) == FullPath(fs.nodes, i);
  }

  lemma SameVolumeSym(fs: Fs, fs': Fs)
    requires SameVolume(fs, fs')
    ensures SameVolume(fs', fs)
  {
    hide FullPath;
  }

  lemma ReadableThere(st: State, fs: Fs, fs': Fs)
    requires SameVolume(fs, fs') && Linked(st, fs) && AllReadable(st.files, fs'.nodes)
    ensures AllReadable(st.files, fs.nodes)
  {
    hide SameVolume, HashBytes, HashReadable, FullPath;
    forall i | i in fs.nodes && fs.nodes[i].fileHash.Some?
      ensures HashReadable(st.files, fs.nodes[i].fileHash.value)
    {
      assert InodeOk(st, fs, i);
      var j := Counterpart(fs, fs', i);
    }
  }

  /** What the new mount serves for a file: what the terms registered under its hash decode to, which is the
      file's content if they are aligned, and of that length in any case. */
  ghost predicate ShowsAgain(st: State, fs: Fs, fs': Fs) {
    forall i, j :: IsFile(fs, i) && IsFile(fs', j) && FullPath(fs.nodes, i) == FullPath(fs'.nodes, j) ==>
      ServedAgain(st, fs, fs', i, j)
  }

  ghost predicate ServedAgain(st: State, fs: Fs, fs': Fs, i: nat, j: nat)
    requires i in fs.nodes && j in fs'.nodes
  {
    && fs.nodes[i].fileHash.Some? && fs.nodes[i].fileHash.value in st.files
    && Served(st, fs', j) == Reassembled(st.files[fs.nodes[i].fileHash.value].terms)
    && (HashReadable(st.files, fs.nodes[i].fileHash.value) ==> Served(st, fs', j) == Content(fs, i))
    && fs'.nodes[j].size == |Content(fs, i)|
  }

  lemma RemountServes(P: Primitives, st: State, fs: Fs, fs': Fs)
    requires ServerOk(P, st) && SameVolume(fs, fs') && Linked(st, fs) && (forall i :: !Dirty(fs, i))
    requires Linked(st, fs') && fs'.open == map[] && fs'.cache == map[] && SizesOk(fs')
    ensures ShowsAgain(st, fs, fs')
    ensures AllReadable(st.files, fs.nodes) <==> AllReadable(st.files, fs'.nodes)
  {
    hide ServerOk, Linked, SizesOk, FullPath, HasPath, ServedAgain, AllReadable;
    if AllReadable(st.files, fs'.nodes) { ReadableThere(st, fs, fs'); }
    if AllReadable(st.files, fs.nodes) {
      SameVolumeSym(fs, fs');
      ReadableThere(st, fs', fs);
    }
    forall i, j | IsFile(fs, i) && IsFile(fs', j) && FullPath(fs.nodes, i) == FullPath(fs'.nodes, j)
      ensures ServedAgain(st, fs, fs', i, j)
    {
      RemountServesFile(P, st, fs, fs', i, j);
    }
  }

  lemma RemountServesFile(P: Primitives, st: State, fs: Fs, fs': Fs, i: nat, j: nat)
    requires ServerOk(P, st) && Linked(st, fs) && IsFile(fs, i) && IsFile(fs', j) && !Dirty(fs, i)
    requires fs.nodes[i].fileHash == fs'.nodes[j].fileHash && fs.nodes[i].fileHash.Some?
    requires Linked(st, fs') && fs'.open == map[] && fs'.cache == map[] && SizesOk(fs')
    ensures ServedAgain(st, fs, fs', i, j)
  {
    hide ServerOk, HashBytes, Aligned, Reassembled;
    assert InodeOk(st, fs, i) && InodeOk(st, fs', j);
    assert Content(fs, i) == HashBytes(fs.nodes[i].fileHash.value) == Content(fs', j);
    if HashReadable(st.files, fs.nodes[i].fileHash.value) { FetchableServes(P, st, fs', j); }
  }

  // ---- Whole histories ----

  /** A mount whose catalog answers for all its files. */
  ghost predicate Faithful(m: Mount, origin: map<nat, string>)
    reads m, m.server
  {
    && m.InOrder() && PathsProper(m.View())
    && Mirrors(m.server.View(), m.volume, m.View(), origin) && Registered(m.server.View(), m.volume)
  }

  /** Under which path each file was found. */
  ghost function Origins(entries: seq<Entry>, leaf: map<nat, nat>): map<nat, string>
    requires forall k :: k in leaf ==> k < |entries|
    requires forall j, k :: j in leaf && k in leaf && leaf[j] == leaf[k] ==> j == k
  {
    map k | k in leaf :: leaf[k] := entries[k].path
  }

  lemma OriginOf(fs: Fs, entries: seq<Entry>, leaf: map<nat, nat>, i: nat) returns (k: nat)
    requires MountedAs(fs, entries, leaf) && IsFile(fs, i)
    ensures k in leaf && leaf[k] == i && LeafMounted(fs, entries[k], i)
    ensures i in Origins(entries, leaf) && Origins(entries, leaf)[i] == entries[k].path
  {
    hide LeafMounted, LeafOk, Comps, Parts, DirsLeadTo;
    k :| k in leaf && leaf[k] == i;
  }

  lemma OriginsAreFiles(fs: Fs, entries: seq<Entry>, leaf: map<nat, nat>, i: nat)
    requires MountedAs(fs, entries, leaf) && i in Origins(entries, leaf)
    ensures IsFile(fs, i)
  {
    hide LeafMounted, Comps, Parts, DirsLeadTo;
    var k :| k in leaf && leaf[k] == i;
    assert LeafMounted(fs, entries[k], i) by { assert LeafMounted(fs, entries[k], leaf[k]); }
    LeafIsFile(fs, entries[k], i);
  }

  lemma LeafIsFile(fs: Fs, e: Entry, i: nat)
    requires LeafMounted(fs, e, i)
    ensures IsFile(fs, i) && FullPath(fs.nodes, i) == "/" + TrimStart(e.path)
    ensures fs.nodes[i].fileHash == Some(e.fileHash)
  {
    hide FullPath, TrimStart, HashBytes;
  }

  /** A file of a fresh mount is listed under the path it was found under, with its hash. */
  lemma FoundUnder(st: State, volume: string, fs: Fs, entries: seq<Entry>, leaf: map<nat, nat>, i: nat)
    requires ListsVolume(st, volume, entries) && MountedAs(fs, entries, leaf) && IsFile(fs, i)
    ensures i in Origins(entries, leaf)
    ensures var path := Origins(entries, leaf)[i];
            && ListedUnder(st, volume, fs, i, path) && (volume, path) in st.catalog
            && fs.nodes[i].fileHash == Some(st.catalog[(volume, path)])
  {
    hide FullPath, TrimStart, LeafMounted, LeafOk, FilesAreLeaves, DirsLeadTo, Named, Origins;
    var k := OriginOf(fs, entries, leaf, i);
    LeafIsFile(fs, entries[k], i);
  }

  lemma PathHasOrigin(
    st: State, volume: string, fs: Fs, entries: seq<Entry>, leaf: map<nat, nat>, path: string) returns (i: nat)
    requires ListsVolume(st, volume, entries) && MountedAs(fs, entries, leaf)
    requires (volume, path) in st.catalog && TrimStart(path) != ""
    ensures i in Origins(entries, leaf) && Origins(entries, leaf)[i] == path
  {
    hide FullPath, TrimStart, LeafMounted, LeafOk, FilesAreLeaves, DirsLeadTo, Named, Origins;
    var k :| 0 <= k < |entries| && entries[k].path == path;
    NamedHasOrigin(fs, entries, leaf, k);
    i := leaf[k];
  }

  lemma BuiltMirrors(st: State, volume: string, fs: Fs, entries: seq<Entry>, leaf: map<nat, nat>)
    requires ListsVolume(st, volume, entries) && MountedAs(fs, entries, leaf) && fs.open == map[]
    ensures Mirrors(st, volume, fs, Origins(entries, leaf))
  {
    hide ListsVolume, TrimStart, LeafMounted, LeafOk, FilesAreLeaves, DirsLeadTo, Named, Origins, ListedUnder;
    var origin := Origins(entries, leaf);
    forall i | i in origin
      ensures ListedUnder(st, volume, fs, i, origin[i])
    {
      OriginsAreFiles(fs, entries, leaf, i);
      FoundUnder(st, volume, fs, entries, leaf, i);
    }
    forall i | IsFile(fs, i)
      ensures i in origin && (volume, origin[i]) in st.catalog
      ensures fs.nodes[i].fileHash == Some(st.catalog[(volume, origin[i])])
    {
      FoundUnder(st, volume, fs, entries, leaf, i);
    }
    forall path | (volume, path) in st.catalog && TrimStart(path) != ""
      ensures exists i :: i in origin && origin[i] == path
    {
      var i := PathHasOrigin(st, volume, fs, entries, leaf, path);
    }
  }

  lemma NamedHasOrigin(fs: Fs, entries: seq<Entry>, leaf: map<nat, nat>, k: nat)
    requires MountedAs(fs, entries, leaf) && k < |entries| && TrimStart(entries[k].path) != ""
    ensures k in leaf && leaf[k] in Origins(entries, leaf) && Origins(entries, leaf)[leaf[k]] == entries[k].path
  {
    hide TrimStart, LeafMounted, Comps, Parts, DirsLeadTo, LeafOk, FilesAreLeaves;
    assert Named(entries[k]);
  }

  lemma ListingRegistered(st: State, volume: string, entries: seq<Entry>)
    requires ListsVolume(st, volume, entries)
    requires forall k :: 0 <= k < |entries| ==> entries[k].size == ListedSize(st.files, entries[k].fileHash)
    ensures Registered(st, volume) <==> ListedIn(st, entries)
  {
    if ListedIn(st, entries) {
      forall path | (volume, path) in st.catalog
        ensures st.catalog[(volume, path)] in st.files
      {
        var k :| 0 <= k < |entries| && entries[k].path == path;
      }
    }
    if Registered(st, volume) {
      forall k | 0 <= k < |entries|
        ensures entries[k].fileHash in st.files
      {
        assert (volume, entries[k].path) in st.catalog;
      }
    }
  }

  /** List the volume and mount it.  If no path is a prefix of another, the catalog answers for all files. */
  method MountVolume(server: Server, volume: string)
    returns (m: Mount, entries: seq<Entry>, ghost leaf: map<nat, nat>, ghost origin: map<nat, string>)
    requires server.Valid() && PacksAll(server.P) && ServerReady(server.P, server.View())
    requires Registered(server.View(), volume)
    ensures fresh(m) && m.server == server && m.volume == volume && m.Base() && SizesOk(m.View())
    ensures m.openFiles == map[] && m.cache == map[]
    ensures ListsVolume(server.View(), volume, entries) && ListedIn(server.View(), entries)
    ensures MountedAs(m.View(), entries, leaf) && origin == Origins(entries, leaf)
    ensures NamesUnique(m.nodes) <==> PrefixFree(entries)
    ensures PrefixFree(entries) ==> Faithful(m, origin)
  {
    hide ServerOk, Lawful, PacksAll, ServerReady, ListedIn, ListsVolume, PrefixFree, Linked, CacheOk, CatalogOk,
      SizesOk, NamesUnique, AllReadable, Registered, TreeOk, NamesOf, Mirrors, LeafMounted, Walk, Comps,
      HashReadable, Named;
    entries := ListEntries(server, volume);
    ListingRegistered(server.View(), volume, entries);
    m, leaf := Connect(server, volume, entries);
    origin := Origins(entries, leaf);
    BuiltMirrors(server.View(), volume, m.View(), entries, leaf);
  }

  lemma {:induction false} RunConcat(P: Primitives, volume: string, m: Mounted, ops: seq<Op>, more: seq<Op>)
    ensures MountRun(P, volume, m, ops + more).0 == MountRun(P, volume, MountRun(P, volume, m, ops).0, more).0
  {
    hide MountStep;
    if |more| == 0 {
      assert ops + more == ops;
    } else {
      RunConcat(P, volume, m, ops, more[..|more| - 1]);
      assert (ops + more)[..|ops + more| - 1] == ops + more[..|more| - 1];
    }
  }

  ghost predicate Releases(ops: seq<Op>) {
    forall k :: 0 <= k < |ops| ==> ops[k].Release?
  }

  lemma ReleaseLegal(p: Plain, ops: seq<Op>, op: Op)
    requires LegalRun(p, ops) && op.Release?
    ensures LegalRun(p, ops + [op])
  {
    hide PlainRun;
    assert (ops + [op])[..|ops|] == ops;
  }

  lemma ReleaseFrame(P: Primitives, volume: string, m: Mounted, ino: nat)
    ensures MountStep(P, volume, m, Release(ino)).0.fs.open.Keys == m.fs.open.Keys - {ino}
  {
    hide FullPath;
  }

  lemma {:induction false} ReleasesLegal(p: Plain, ops: seq<Op>, more: seq<Op>)
    requires LegalRun(p, ops) && Releases(more)
    ensures LegalRun(p, ops + more)
  {
    hide PlainRun, LegalRun, Legal;
    if |more| == 0 {
      assert ops + more == ops;
    } else {
      var init, last := ops + more[..|more| - 1], more[|more| - 1];
      ReleasesLegal(p, ops, more[..|more| - 1]);
      assert ops + more == init + [last];
      ReleaseLegal(p, init, last);
    }
  }

  /** Release every open file; no content changes. */
  method ReleaseAll(m: Mount) returns (ghost releases: seq<Op>)
    requires m.InOrder()
    modifies m, m.server
    ensures m.InOrder() && m.openFiles == map[] && m.tracked == old(m.tracked) && Releases(releases)
    ensures m.Now() == MountRun(m.server.P, m.volume, old(m.Now()), releases).0
    ensures Abs(m.View()) == old(Abs(m.View())).(unsynced := {})
    ensures old(m.Base()) ==> m.Base()
  {
    hide Orderly, PacksAll, Lawful, ServerOk, CacheOk, AllReadable, MountStep, NamesOf, DirsOf, FilesOf,
      StoresAligned, Alone, Mount.Published, NamesUnique, SizesOk, FullPath, SameFiles, CanServe;
    releases := [];
    var todo := m.openFiles.Keys;
    while todo != {}
      invariant m.InOrder() && m.tracked == old(m.tracked) && Releases(releases)
      invariant m.Now() == MountRun(m.server.P, m.volume, old(m.Now()), releases).0
      invariant Abs(m.View()) == old(Abs(m.View())).(unsynced := Abs(m.View()).unsynced)
      invariant m.openFiles.Keys == todo
      invariant old(m.Base()) ==> m.Base()
      decreases todo
    {
      var ino :| ino in todo;
      ReleaseEffect(m.server.P, m.volume, m.Now(), m.tracked, ino);
      ReleaseFrame(m.server.P, m.volume, m.Now(), ino);
      assert m.tracked + {} == m.tracked;
      m.ReleaseFile(ino);
      assert (releases + [Release(ino)])[..|releases|] == releases;
      releases := releases + [Release(ino)];
      todo := todo - {ino};
    }
  }

  /** Any run of requests, release of every file, and a new mount of the volume.  The new mount has unique
      names exactly if no file found under another spelling of its path was written back.  Then it has the
      same paths with the same hashes, and serves for each what its terms decode to: the content itself for
      every aligned record.  It reads back exactly as much as the old mount, and the same can be said of
      it again. */
  method RunThenRemount(m: Mount, ops: seq<Op>, ghost origin: map<nat, string>)
    returns (replies: seq<Reply>, ghost releases: seq<Op>, again: Mount, ghost origin': map<nat, string>)
    requires Faithful(m, origin) && LegalRun(Abs(m.View()), ops) && Create(ROOT, "") !in ops
    modifies m, m.server
    ensures m.InOrder() && m.openFiles == map[] && Releases(releases)
    ensures m.Now() == MountRun(m.server.P, m.volume, old(m.Now()), ops + releases).0
    ensures replies == MountRun(m.server.P, m.volume, old(m.Now()), ops).1
    ensures fresh(again) && again.server == m.server && again.volume == m.volume
    ensures again.Base() && SizesOk(again.View())
    ensures NamesUnique(again.nodes) <==>
            SpeltRight(origin, WrittenFiles(m.server.P, m.volume, old(m.Now()), ops + releases))
    ensures NamesUnique(again.nodes) ==>
      && SameVolume(m.View(), again.View()) && ShowsAgain(m.server.View(), m.View(), again.View())
      && (again.Readable() <==> m.Readable()) && Faithful(again, origin')
    ensures old(m.Readable()) && AlignedRun(m.server.P, m.volume, old(m.Now()), ops + releases) ==> m.Readable()
    ensures old(m.Base()) && AllServed(m.server.P, m.volume, old(m.Now()), ops) ==>
      Abs(m.View()).files == PlainRun(old(Abs(m.View())), ops).0.files
  {
    hide Orderly, PacksAll, Lawful, ServerOk, CacheOk, AllReadable, MountRun, PlainRun, RunEdits, LegalRun,
      NamesUnique, SizesOk, SameOutline, StorableRun, AlignedRun, AllServed, PathsProper, Mirrors, Registered,
      WrittenFiles, SpeltRight, SameVolume, ShowsAgain, MountedAs, ListsVolume, ListedIn, PrefixFree, NamesOf,
      DirsOf, FilesOf, UnsyncedOf, Origins;
    ghost var P, volume, was, tracked0 := m.server.P, m.volume, m.Now(), m.tracked;
    replies := m.PerformAll(ops);
    releases := ReleaseAll(m);
    ghost var run := ops + releases;
    RunConcat(P, volume, was, ops, releases);
    ReleasesLegal(Abs(was.fs), ops, releases);
    HistoryMeans(P, volume, was, tracked0, run);
    ReadyParts(m);
    var entries;
    ghost var leaf;
    again, entries, leaf, origin' := MountVolume(m.server, m.volume);
    PrefixFreeExactly(P, volume, was, tracked0, run, origin, entries);
    if PrefixFree(entries) {
      assert run[..|run|] == run;
      ghost var settled := RunMirrors(P, volume, was, tracked0, run, origin, |run|);
      AfterEnds(P, volume, was, run);
      RunPathsProper(P, volume, was, tracked0, run, |run|);
      RemountShowsSame(m.server.View(), m.volume, m.View(), settled, entries, again.View(), leaf);
      LinkedMounts(m, again);
      RemountServes(P, m.server.View(), m.View(), again.View());
    }
  }

  lemma ReadyParts(m: Mount)
    requires m.InOrder()
    ensures ServerReady(m.server.P, m.server.View()) && m.server.Valid() && PacksAll(m.server.P)
  {
    hide PacksAll, Lawful, ServerOk, ServerReady, CatalogOk, Linked, ShapeOk;
  }

  lemma LinkedMounts(m: Mount, again: Mount)
    requires m.InOrder() && again.InOrder() && again.server == m.server
    ensures ServerOk(m.server.P, m.server.View())
    ensures Linked(m.server.View(), m.View()) && Linked(m.server.View(), again.View())
  {
    hide PacksAll, Lawful, ServerOk, ServerReady, CatalogOk, Linked, ShapeOk;
  }

  /** What the whole history keeps, put together. */
  lemma HistoryMeans(P: Primitives, volume: string, m: Mounted, tracked: set<nat>, run: seq<Op>)
    requires Lawful(P) && PacksAll(P) && Orderly(P, volume, m, tracked) && LegalRun(Abs(m.fs), run)
    requires Registered(m.server, volume)
    ensures var t := MountRun(P, volume, m, run).0;
            && Registered(t.server, volume)
            && (AllReadable(m.server.files, m.fs.nodes) && AlignedRun(P, volume, m, run) ==>
                  AllReadable(t.server.files, t.fs.nodes))
  {
    hide Lawful, PacksAll, Orderly, LegalRun, MountRun, Abs, Registered, WrittenFiles, AllReadable, AlignedRun,
      AllServed, CacheOk, SizesOk, NamesUnique, PlainRun, SameOutline, StorableRun, FullPath;
    assert run[..|run|] == run;
    RunGrows(P, volume, m, tracked, run, |run|);
    RunMeans(P, volume, m, tracked, run);
  }
}
