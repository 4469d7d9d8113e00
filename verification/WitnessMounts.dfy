/** Concrete mounts, on the toy primitives, that reach each failure of the mount described elsewhere:
    wrong bytes served, a stale size, a file split in two, siblings of one name. */
module WitnessMounts {
  import opened Basics
  import opened XorbFormat
  import opened ServerModel
  import opened Reading
  import opened Xetd
  import Agent
  import opened PlainFiles
  import opened InodeTree
  import opened TreeBuild
  import opened MountModel
  import opened MountSteps
  import opened Mirror
  import opened Xetfs
  import opened Remount
  import opened Witness

  // ---- A server with files ----

  /** A server on the toy primitives that is ready for a mount. */
  ghost predicate Ready(server: Server)
    reads server
  {
    server.P == TOY && server.Valid() && PacksAll(TOY) && ServerReady(TOY, server.View())
  }

  method NewServer() returns (server: Server)
    ensures fresh(server) && Ready(server) && server.View() == EMPTY
  {
    hide Lawful, PacksAll, ServerReady, ServerOk;
    HypothesesSatisfiable();
    EmptyIsReady();
    server := new Server(TOY);
  }

  /** An agent ingests a file. */
  method Store(server: Server, volume: string, path: string, bytes: Bytes)
    requires Ready(server)
    modifies server
    ensures Ready(server) && server.View() == Agent.Ingested(TOY, old(server.View()), bytes, (volume, path))
    ensures server.catalog == old(server.catalog)[(volume, path) := FileHash(SingleChunks(bytes))]
    ensures server.files == old(server.files)[
              FileHash(SingleChunks(bytes)) := Agent.IngestRecord(TOY, old(server.View()), bytes)]
  {
    hide Lawful, PacksAll, ServerReady, ServerOk, Agent.AfterUploads, Agent.IngestRecord, Agent.CanIngest,
      Agent.Healthy;
    ReadyIngest(TOY, server.View(), bytes, (volume, path));
    ReadyIsOk(TOY, server.View());
    IngestedCatalog(TOY, server.View(), bytes, (volume, path));
    IngestedFiles(TOY, server.View(), bytes, (volume, path));
    var stored := Agent.IngestBytes(server, volume, path, bytes);
  }

  // ---- Names ----

  lemma OneName(name: string)
    requires name != "" && '/' !in name
    ensures TrimStart("/" + name) == name == TrimStart(name) && Split(name) == [name]
  {
    assert ("/" + name)[1..] == name;
    assert Join([name]) == name;
    SplitJoin([name]);
  }

  /** The only entry of a volume with one file. */
  lemma OnlyEntry(st: State, volume: string, entries: seq<Entry>, path: string)
    requires ListsVolume(st, volume, entries) && (volume, path) in st.catalog
    requires forall p :: (volume, p) in st.catalog ==> p == path
    ensures |entries| == 1 && entries[0].path == path && entries[0].fileHash == st.catalog[(volume, path)]
  {
    var k :| 0 <= k < |entries| && entries[k].path == path;
    assert forall j :: 0 <= j < |entries| ==> entries[j].path == path;
    assert forall j :: 0 <= j < |entries| && entries[j].path == entries[k].path ==> j == k;
    assert entries[0].path == path && entries[|entries| - 1].path == path;
  }

  lemma OneFilePrefixFree(entries: seq<Entry>)
    requires |entries| == 1
    ensures PrefixFree(entries)
  {
  }

  /** Mount a volume that has one file, in its root, and look the file up. */
  method MountOne(server: Server, volume: string, name: string, ghost path: string) returns (m: Mount, ino: nat)
    requires Ready(server) && Registered(server.View(), volume) && (volume, path) in server.catalog
    requires forall p :: (volume, p) in server.catalog ==> p == path
    requires TrimStart(path) == name != "" && '/' !in name
    ensures fresh(m) && m.server == server && m.volume == volume && m.Base() && SizesOk(m.View())
    ensures m.openFiles == map[] && m.cache == map[] && NamesUnique(m.nodes)
    ensures ROOT in m.nodes && m.nodes[ROOT].kind.Dir?
    ensures LookupChild(m.nodes, ROOT, name) == Some(ino) && IsFile(m.View(), ino)
    ensures m.nodes[ino].fileHash == Some(server.catalog[(volume, path)]) && FullPath(m.nodes, ino) == "/" + name
  {
    hide Lawful, PacksAll, ServerReady, ServerOk, Linked, CacheOk, CatalogOk, SizesOk, NamesUnique, Registered,
      ListsVolume, ListedIn, PrefixFree, Origins, TreeOk, TrimStart, Split, Parts, LookupChild, HashBytes, FullPath;
    var entries;
    ghost var leaf, origin;
    m, entries, leaf, origin := MountVolume(server, volume);
    OnlyEntry(server.View(), volume, entries, path);
    OneFilePrefixFree(entries);
    OneName(name);
    assert LeafMounted(m.View(), entries[0], leaf[0]);
    var comps := [name];
    assert Comps(entries[0]) == comps;
    WalkOne(m.nodes, name);
    assert ROOT in m.nodes && m.nodes[ROOT].kind.Dir? by { RootIsDir(m.View()); }
    var found := LookupChild(m.nodes, ROOT, name);
    WalksThere(m.nodes, m.next, entries, leaf, name);
    ino := found.value;
  }

  lemma WalkOne(nodes: Nodes, name: string)
    ensures Walk(nodes, [name]) == LookupChild(nodes, ROOT, name)
  {
    assert [name][..0] == [];
    assert Walk(nodes, []) == Some(ROOT);
  }

  lemma WalksThere(nodes: Nodes, next: nat, entries: seq<Entry>, leaf: map<nat, nat>, name: string)
    requires TreeOk(nodes, next) && NamesUnique(nodes) && LeavesOk(nodes, entries, leaf) && 0 in leaf
    requires Comps(entries[0]) == [name]
    ensures LookupChild(nodes, ROOT, name) == Some(leaf[0])
  {
    hide TreeOk, NamesUnique, LookupChild, Comps, Parts, Named;
    assert LeafOk(nodes, entries[0], leaf[0]);
    WalkArrives(nodes, next, leaf[0]);
    WalkOne(nodes, name);
  }

  // ---- Wrong bytes ----

  /** One volume holds the file 1 2 3, another the file 1 2 3 2.  Mounted, the second file reads 1 2 3 1. */
  method MountServesWrongBytes() returns (reply: Reply)
    ensures reply == Data([1, 2, 3, 1]) != Data(ABCB)
  {
    hide Lawful, PacksAll, ServerReady, ServerOk, Linked, CacheOk, CatalogOk, SizesOk, NamesUnique, TreeOk,
      Agent.IngestRecord, Agent.Ingested, Slice, LookupChild, HashBytes, Reassembled, Agent.Lookup, Mount.Performed,
      SingleChunks, FullPath;
    assert ABCB[3] != [1, 2, 3, 1][3];
    var server := NewServer();
    Store(server, "v", "/a", ABC);
    ghost var st := server.View();
    FirstIngest(("v", "/a"));
    Store(server, "w", "/b", ABCB);
    SecondPlan(st);
    OneName("b");
    var m, ino := MountOne(server, "w", "b", "/b");
    assert Served(server.View(), m.View(), ino) == [1, 2, 3, 1];
    reply := m.ReadFile(ino, 0, 4);
    assert Slice([1, 2, 3, 1], 0, 4) == [1, 2, 3, 1] by { WholeSlice([1, 2, 3, 1]); }
  }

  lemma WholeSlice(b: Bytes)
    ensures Slice(b, 0, |b|) == b
  {
  }

  // ---- A stale size ----

  /** Creating a file over an existing one empties it but leaves the size it had. */
  method CreateLeavesSize() returns (m: Mount, ino: nat)
    ensures IsFile(m.View(), ino) && Content(m.View(), ino) == [] && m.nodes[ino].size == 3
  {
    hide Lawful, PacksAll, ServerReady, ServerOk, Linked, CacheOk, CatalogOk, NamesUnique, TreeOk, Agent.IngestRecord,
      Agent.Ingested, LookupChild, Mount.Performed, FullPath, AllReadable, NamesOf, FilesOf, DirsOf;
    var server := NewServer();
    Store(server, "v", "/a", ABC);
    OneName("a");
    m, ino := MountOne(server, "v", "a", "/a");
    assert m.nodes[ino].size == 3 by {
      ToyChunker(ABC);
      assert Content(m.View(), ino) == ABC;
    }
    var again := m.CreateFile(ROOT, "a");
  }

  // ---- Two spellings ----

  lemma FlushedCatalog(st: State, bytes: Bytes, key: CatalogKey)
    requires ServerReady(TOY, st)
    ensures var t := Agent.Ingested(TOY, st, bytes, key);
            && t.catalog == st.catalog[key := FileHash(TOY.chunker(bytes))]
            && t.files == st.files[FileHash(TOY.chunker(bytes)) := Agent.IngestRecord(TOY, st, bytes)]
  {
    hide ServerReady, Lawful, PacksAll, Agent.IngestRecord, Agent.Ingested, Agent.Healthy;
    HypothesesSatisfiable();
    ReadyIsOk(TOY, st);
    IngestedCatalog(TOY, st, bytes, key);
    IngestedFiles(TOY, st, bytes, key);
  }

  /** A file found under a path without its slash is written back: the next mount has two files of that
      name, one of them with the old content. */
  method WriteBackSplitsFile() returns (again: Mount)
    ensures !NamesUnique(again.nodes)
  {
    hide Lawful, PacksAll, ServerReady, ServerOk, Linked, CacheOk, CatalogOk, SizesOk, NamesUnique, TreeOk,
      Agent.IngestRecord, Agent.Ingested, Resize, LookupChild, HashBytes, Reassembled, Mount.Performed, SingleChunks,
      FullPath, AllReadable, StoresAligned, Alone, Mount.Published, PrefixFree, ListsVolume, ListedIn, TrimStart,
      MountedAs, Origins;
    var server := NewServer();
    Store(server, "v", "a", ABC);
    OneName("a");
    var m, ino := MountOne(server, "v", "a", "a");
    var emptied := m.CreateFile(ROOT, "a");
    assert Dirty(m.View(), ino) && FullPath(m.nodes, ino) == "/a";
    ghost var st := server.View();
    m.FlushIfDirty(ino);
    FlushedCatalog(st, [], ("v", "/a"));
    assert Registered(server.View(), "v");
    var entries;
    ghost var leaf, origin;
    again, entries, leaf, origin := MountVolume(server, "v");
    TwoSpellings(server.View(), "v", entries, "a", "/a");
  }

  // ---- Siblings of one name ----

  /** A file whose path is also a directory on the way to another: the mount shows both under one name. */
  method PrefixGivesSiblings() returns (m: Mount, ghost file: nat, ghost dir: nat)
    ensures file in m.nodes && m.nodes[file].kind.File? && dir in m.nodes && m.nodes[dir].kind.Dir?
    ensures Parts(m.nodes, file) == Parts(m.nodes, dir) == ["a"]
    ensures !NamesUnique(m.nodes)
  {
    hide Lawful, PacksAll, ServerReady, ServerOk, Linked, CacheOk, CatalogOk, SizesOk, NamesUnique, TreeOk,
      Agent.IngestRecord, Agent.Ingested, HashBytes, SingleChunks, FullPath, AllReadable, PrefixFree, ListsVolume,
      ListedIn, TrimStart, Origins, Split, Parts, LeavesOk, LeafMounted, Join, Walk, Comps, Faithful, Server.Valid;
    var server := NewServer();
    Store(server, "v", "/a", ABC);
    Store(server, "v", "/a/b", ABC);
    var entries;
    ghost var leaf, origin;
    m, entries, leaf, origin := MountVolume(server, "v");
    ghost var j := ListedAt(server.View(), "v", entries, "/a");
    ghost var k := ListedAt(server.View(), "v", entries, "/a/b");
    TwoNames();
    file, dir := FileAndDir(m.View(), entries, leaf, j, k);
  }

  lemma ListedAt(st: State, volume: string, entries: seq<Entry>, path: string) returns (k: nat)
    requires ListsVolume(st, volume, entries) && (volume, path) in st.catalog
    ensures k < |entries| && entries[k].path == path
  {
    k :| 0 <= k < |entries| && entries[k].path == path;
  }

  lemma FileAndDir(fs: Fs, entries: seq<Entry>, leaf: map<nat, nat>, j: nat, k: nat) returns (file: nat, dir: nat)
    requires ShapeOk(fs) && MountedAs(fs, entries, leaf) && j < |entries| && k < |entries|
    requires TrimStart(entries[j].path) != "" && TrimStart(entries[k].path) != ""
    requires Split(TrimStart(entries[j].path)) < Split(TrimStart(entries[k].path))
    ensures file in fs.nodes && fs.nodes[file].kind.File? && dir in fs.nodes && fs.nodes[dir].kind.Dir?
    ensures Parts(fs.nodes, file) == Parts(fs.nodes, dir) == Split(TrimStart(entries[j].path)) && !NamesUnique(fs.nodes)
  {
    hide TreeOk, NamesUnique, TrimStart, Split, Parts, MountedAs;
    EntryLeaf(fs, entries, leaf, j);
    EntryLeaf(fs, entries, leaf, k);
    file := leaf[j];
    dir := AncestorAt(fs.nodes, fs.next, leaf[k], Split(TrimStart(entries[j].path)));
    if NamesUnique(fs.nodes) { PartsInjective(fs.nodes, fs.next, file, dir); }
  }

  lemma EntryLeaf(fs: Fs, entries: seq<Entry>, leaf: map<nat, nat>, k: nat)
    requires MountedAs(fs, entries, leaf) && k < |entries| && TrimStart(entries[k].path) != ""
    ensures k in leaf && IsFile(fs, leaf[k]) && Parts(fs.nodes, leaf[k]) == Split(TrimStart(entries[k].path))
  {
    hide TrimStart, Split, Parts, FullPath, HashBytes;
    assert Named(entries[k]);
    assert LeafOk(fs.nodes, entries[k], leaf[k]);
  }

  lemma TwoNames()
    ensures TrimStart("/a/b") == "a/b" && Split("a/b") == ["a", "b"]
    ensures TrimStart("/a") == "a" && Split("a") == ["a"] && ["a"] < ["a", "b"]
  {
    OneName("a");
    assert "/" + "a" == "/a";
    assert "/a/b"[1..] == "a/b";
    assert TrimStart("a/b") == "a/b";
    assert ["a", "b"][1..] == ["b"];
    assert Join(["b"]) == "b";
    assert Join(["a", "b"]) == "a" + "/" + "b" == "a/b";
    SplitJoin(["a", "b"]);
  }
}
