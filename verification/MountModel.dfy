/** The mount's state as a value: inode tree, staging buffers and per-inode cache, the changes its
    operations make to it, and the plain file model it stands for. */
module MountModel {
  import opened Basics
  import opened XorbFormat
  import opened ServerModel
  import opened Planner
  import opened Reading
  import opened Agent
  import opened PlainFiles
  import opened InodeTree

  datatype Staging = Staging(buf: Bytes, dirty: bool)

  datatype Fs = Fs(nodes: Nodes, open: map<nat, Staging>, cache: map<nat, Bytes>, next: nat)

  /** The bytes a content hash stands for. */
  function HashBytes(fh: FileHash): Bytes {
    Flatten(fh.chunks)
  }

  predicate IsFile(fs: Fs, ino: nat) {
    ino in fs.nodes && fs.nodes[ino].kind.File?
  }

  predicate Dirty(fs: Fs, ino: nat) {
    ino in fs.open && fs.open[ino].dirty
  }

  /** What a reader of `ino` must see: the staging buffer while there is one. */
  function Content(fs: Fs, ino: nat): Bytes
    requires ino in fs.nodes
  {
    if ino in fs.open then fs.open[ino].buf
    else if fs.nodes[ino].fileHash.Some? then HashBytes(fs.nodes[ino].fileHash.value) else []
  }

  ghost function FilesOf(fs: Fs): map<nat, Bytes> {
    map ino | ino in fs.nodes && fs.nodes[ino].kind.File? :: Content(fs, ino)
  }

  ghost function DirsOf(nodes: Nodes): set<nat> {
    set ino | ino in nodes && nodes[ino].kind.Dir?
  }

  ghost function NamesOf(nodes: Nodes): set<(nat, string)> {
    set ino | ino in nodes && ino != ROOT :: (nodes[ino].parent, nodes[ino].name)
  }

  ghost function UnsyncedOf(open: map<nat, Staging>): set<nat> {
    set ino | ino in open && open[ino].dirty
  }

  /** The plain file model a mount stands for. */
  ghost function Abs(fs: Fs): Plain {
    Plain(FilesOf(fs), DirsOf(fs.nodes), NamesOf(fs.nodes), fs.next, UnsyncedOf(fs.open))
  }

  // ---- Invariants ----

  /** A clean file is stored under its hash, and its buffer, if it has one, is that content. */
  ghost predicate InodeOk(server: State, fs: Fs, ino: nat)
    requires ino in fs.nodes
  {
    var n := fs.nodes[ino];
    && (n.kind.Dir? ==> n.fileHash.None? && ino !in fs.open && ino !in fs.cache)
    && (n.kind.File? && !Dirty(fs, ino) ==> n.fileHash.Some?)
    && (n.fileHash.Some? ==> n.fileHash.value in server.files)
    && (n.fileHash.Some? && ino in fs.open && !fs.open[ino].dirty ==> fs.open[ino].buf == HashBytes(n.fileHash.value))
    && (ino in fs.cache ==> n.fileHash.Some?)
  }

  /** Buffers and cached copies belong to files, and the files are registered. */
  ghost predicate Linked(server: State, fs: Fs) {
    && (forall ino :: ino in fs.open ==> ino in fs.nodes)
    && (forall ino :: ino in fs.cache ==> ino in fs.nodes)
    && (forall ino :: ino in fs.nodes ==> InodeOk(server, fs, ino))
  }

  /** Cached copies are what the hash stands for. */
  ghost predicate CacheOk(fs: Fs) {
    forall ino :: ino in fs.cache && ino in fs.nodes && fs.nodes[ino].fileHash.Some? ==>
      fs.cache[ino] == HashBytes(fs.nodes[ino].fileHash.value)
  }

  ghost predicate ContentOk(server: State, fs: Fs) {
    Linked(server, fs) && CacheOk(fs)
  }

  ghost predicate ShapeOk(fs: Fs) {
    TreeOk(fs.nodes, fs.next)
  }

  ghost predicate SizesOk(fs: Fs) {
    forall ino :: IsFile(fs, ino) ==> fs.nodes[ino].size == |Content(fs, ino)|
  }

  /** The catalog entry of `ino`'s path is the hash the node carries. */
  ghost predicate InCatalog(server: State, volume: string, fs: Fs, ino: nat)
    requires ino in fs.nodes
  {
    var key := (volume, FullPath(fs.nodes, ino));
    key in server.catalog && fs.nodes[ino].fileHash == Some(server.catalog[key])
  }

  /** No other file has the path of `ino`. */
  ghost predicate Alone(nodes: Nodes, ino: nat) {
    forall i :: i in nodes && nodes[i].kind.File? && FullPath(nodes, i) == FullPath(nodes, ino) ==> i == ino
  }

  /** A tracked file with a path of its own is waiting to be written back or is in the catalog. */
  ghost predicate CatalogOk(server: State, volume: string, fs: Fs, tracked: set<nat>) {
    && (forall ino :: ino in tracked ==> IsFile(fs, ino))
    && (forall ino :: ino in tracked && Alone(fs.nodes, ino) ==> Dirty(fs, ino) || InCatalog(server, volume, fs, ino))
  }

  /** Registered with aligned terms, so that it reads back. */
  predicate HashReadable(files: map<FileHash, FileRecord>, fh: FileHash) {
    fh in files && Aligned(files[fh].terms)
  }

  /** Every file of the tree that has a hash reads back. */
  ghost predicate AllReadable(files: map<FileHash, FileRecord>, nodes: Nodes) {
    forall ino :: ino in nodes && nodes[ino].fileHash.Some? ==> HashReadable(files, nodes[ino].fileHash.value)
  }

  /** What the mount gets for a file that has no buffer: its cached copy, or what the terms registered
      under its hash decode to. */
  ghost function StoredBytes(server: State, fs: Fs, ino: nat): Option<Bytes> {
    if ino in fs.cache then Some(fs.cache[ino])
    else if ino !in fs.nodes || fs.nodes[ino].fileHash.None? || fs.nodes[ino].fileHash.value !in server.files then None
    else Some(Reassembled(server.files[fs.nodes[ino].fileHash.value].terms))
  }

  /** What the mount takes for the content of a file. */
  ghost function Served(server: State, fs: Fs, ino: nat): Bytes {
    if ino in fs.open then fs.open[ino].buf
    else match StoredBytes(server, fs, ino) case Some(bytes) => bytes case None => []
  }

  /** Cached, without a hash, or readable by its hash. */
  predicate Fetchable(files: map<FileHash, FileRecord>, fs: Fs, ino: nat) {
    || ino in fs.cache || ino !in fs.nodes || fs.nodes[ino].fileHash.None?
    || HashReadable(files, fs.nodes[ino].fileHash.value)
  }

  /** What is served for a fetchable file is its content. */
  lemma FetchableServes(P: Primitives, server: State, fs: Fs, ino: nat)
    requires ServerOk(P, server) && ContentOk(server, fs) && Fetchable(server.files, fs, ino)
    ensures StoredBytes(server, fs, ino)
         == if IsFile(fs, ino) && fs.nodes[ino].fileHash.Some?
            then Some(HashBytes(fs.nodes[ino].fileHash.value)) else None
    ensures ino in fs.nodes ==> Served(server, fs, ino) == Content(fs, ino)
  {
    hide ServerOk, Reassembled, Aligned, Flatten;
    if ino in fs.nodes {
      assert InodeOk(server, fs, ino);
      if ino !in fs.cache && fs.nodes[ino].fileHash.Some? {
        StoredFileReassembles(P, server, fs.nodes[ino].fileHash.value);
      }
    }
  }

  lemma SameHashesReadable(files: map<FileHash, FileRecord>, nodes: Nodes, nodes': Nodes)
    requires forall i :: i in nodes ==> i in nodes' && nodes'[i].fileHash == nodes[i].fileHash
    requires forall i :: i in nodes' && i !in nodes ==> nodes'[i].fileHash.None?
    ensures AllReadable(files, nodes') <==> AllReadable(files, nodes)
  {
    hide HashReadable;
    if !AllReadable(files, nodes) {
      var i :| i in nodes && nodes[i].fileHash.Some? && !HashReadable(files, nodes[i].fileHash.value);
      assert nodes'[i].fileHash == nodes[i].fileHash;
    }
  }

  /** The server the mount needs: sound, with no upload or collection of others under way. */
  ghost predicate ServerReady(P: Primitives, server: State) {
    Healthy(P, server) && server.blobs.Keys <= server.xorbs.Keys
  }

  predicate PackableGroup(group: seq<Chunk>) {
    |group| == 1 || (0 < |group| <= 8192 && TotalLen(group) <= 62914560)
  }

  /** Every group the planner may form, a run of consecutive chunks of some file, can be packed. */
  ghost predicate PacksAll(P: Primitives) {
    forall b, i, j :: 0 <= i < j <= |P.chunker(b)| && PackableGroup(P.chunker(b)[i..j]) ==>
      P.serialize(P.chunker(b)[i..j]).Some?
  }

  // ---- State changes ----

  function SetNode(fs: Fs, ino: nat, fileHash: Option<FileHash>, size: nat): Nodes
    requires ino in fs.nodes
  {
    fs.nodes[ino := fs.nodes[ino].(fileHash := fileHash, size := size)]
  }

  /** An edit: the buffer is replaced and marked dirty, the node's size follows. */
  function Stage(fs: Fs, ino: nat, buf: Bytes): Fs
    requires ino in fs.nodes
  {
    fs.(open := fs.open[ino := Staging(buf, true)], nodes := SetNode(fs, ino, fs.nodes[ino].fileHash, |buf|))
  }

  /** A clean buffer appears. */
  function Seed(fs: Fs, ino: nat, buf: Bytes): Fs {
    fs.(open := fs.open[ino := Staging(buf, false)])
  }

  function Remember(fs: Fs, ino: nat, bytes: Bytes): Fs {
    fs.(cache := fs.cache[ino := bytes])
  }

  /** A write-back succeeded: the buffer is clean, the node carries the new hash, the cached copy
      is dropped. */
  function Stored(fs: Fs, ino: nat, fh: FileHash, buf: Bytes): Fs
    requires ino in fs.nodes
  {
    fs.(open := fs.open[ino := Staging(buf, false)],
        nodes := SetNode(fs, ino, Some(fh), |buf|),
        cache := fs.cache - {ino})
  }

  function Close(fs: Fs, ino: nat): Fs {
    fs.(open := fs.open - {ino})
  }

  function NewFile(parent: nat, name: string): Node {
    Node(name, File, parent, [], None, 0)
  }

  function CreateFresh(fs: Fs, parent: nat, name: string): Fs
    requires parent in fs.nodes
  {
    Fs(AddNode(fs.nodes, parent, fs.next, NewFile(parent, name)),
       fs.open[fs.next := Staging([], true)], fs.cache, fs.next + 1)
  }

  // ---- Shape ----

  lemma SetNodeTree(nodes: Nodes, next: nat, ino: nat, node: Node)
    requires TreeOk(nodes, next) && ino in nodes
    requires node == nodes[ino].(fileHash := node.fileHash, size := node.size)
    ensures TreeOk(nodes[ino := node], next) && SameShape(nodes, nodes[ino := node])
  {
    var nodes' := nodes[ino := node];
    forall i | i in nodes'
      ensures NodeOk(nodes', next, i)
    {
      assert NodeOk(nodes, next, i);
    }
    forall p, c | p in nodes'
      ensures Listed(nodes', p, c)
    {
      assert Listed(nodes, p, c);
    }
  }

  lemma SetNodeNames(nodes: Nodes, ino: nat, node: Node)
    requires ino in nodes && node == nodes[ino].(fileHash := node.fileHash, size := node.size)
    ensures NamesOf(nodes[ino := node]) == NamesOf(nodes) && DirsOf(nodes[ino := node]) == DirsOf(nodes)
    ensures NamesUnique(nodes) ==> NamesUnique(nodes[ino := node])
  {
    var nodes' := nodes[ino := node];
    forall i | i in nodes && i != ROOT
      ensures (nodes'[i].parent, nodes'[i].name) == (nodes[i].parent, nodes[i].name)
    {
    }
    forall i, j | i in nodes && j in nodes
      ensures SameEntry(nodes', i, j) <==> SameEntry(nodes, i, j)
    {
    }
    NamesSubset(nodes, nodes');
    NamesSubset(nodes', nodes);
  }

  lemma NamesSubset(nodes: Nodes, nodes': Nodes)
    requires SameShape(nodes, nodes')
    ensures NamesOf(nodes) <= NamesOf(nodes')
  {
    forall p | p in NamesOf(nodes)
      ensures p in NamesOf(nodes')
    {
      var i :| i in nodes && i != ROOT && (nodes[i].parent, nodes[i].name) == p;
      assert (nodes'[i].parent, nodes'[i].name) == p;
    }
  }

  /** Files stay files, under their paths. */
  ghost predicate SameFiles(nodes: Nodes, nodes': Nodes) {
    forall i :: i in nodes && nodes[i].kind.File? ==>
      i in nodes' && nodes'[i].kind.File? && FullPath(nodes', i) == FullPath(nodes, i)
  }

  lemma SamePaths(nodes: Nodes, nodes': Nodes, next: nat)
    requires TreeOk(nodes, next) && SameShape(nodes, nodes')
    requires forall i :: i in nodes ==> nodes'[i].kind == nodes[i].kind
    ensures SameFiles(nodes, nodes')
  {
    hide TreeOk, Parts;
    forall i | i in nodes && nodes[i].kind.File?
      ensures FullPath(nodes', i) == FullPath(nodes, i)
    {
      PartsOfSameShape(nodes, nodes', next, i);
    }
  }

  /** Changing a node's hash or size leaves shape, names and paths alone. */
  lemma SetNodeShape(fs: Fs, ino: nat, fileHash: Option<FileHash>, size: nat)
    requires ShapeOk(fs) && ino in fs.nodes
    ensures var nodes' := SetNode(fs, ino, fileHash, size);
            && ShapeOk(fs.(nodes := nodes')) && (NamesUnique(fs.nodes) ==> NamesUnique(nodes'))
            && NamesOf(nodes') == NamesOf(fs.nodes) && DirsOf(nodes') == DirsOf(fs.nodes)
            && SameFiles(fs.nodes, nodes')
  {
    hide TreeOk, NamesUnique, NamesOf, DirsOf, FullPath, SameShape, SameFiles;
    var node := fs.nodes[ino].(fileHash := fileHash, size := size);
    SetNodeTree(fs.nodes, fs.next, ino, node);
    SetNodeNames(fs.nodes, ino, node);
    SamePaths(fs.nodes, SetNode(fs, ino, fileHash, size), fs.next);
  }

  lemma FreshNameFree(nodes: Nodes, parent: nat, name: string)
    requires (parent, name) !in NamesOf(nodes)
    ensures forall i :: i in nodes && i != ROOT ==> nodes[i].parent != parent || nodes[i].name != name
  {
    forall i | i in nodes && i != ROOT
      ensures nodes[i].parent != parent || nodes[i].name != name
    {
      assert (nodes[i].parent, nodes[i].name) in NamesOf(nodes);
    }
  }

  lemma CreateFreshShape(fs: Fs, parent: nat, name: string)
    requires ShapeOk(fs) && parent in fs.nodes && fs.nodes[parent].kind.Dir?
    ensures ShapeOk(CreateFresh(fs, parent, name))
    ensures fs.next !in fs.nodes && fs.next > ROOT
    ensures SameFiles(fs.nodes, CreateFresh(fs, parent, name).nodes)
  {
    var node := NewFile(parent, name);
    var nodes, nodes' := fs.nodes, AddNode(fs.nodes, parent, fs.next, NewFile(parent, name));
    InodesBelow(nodes, fs.next);
    assert NodeOk(nodes, fs.next, ROOT);
    AddNodeKeepsTree(nodes, fs.next, parent, node);
    AddNodeParts(nodes, fs.next, parent, node);
  }

  lemma CreateFreshUnique(fs: Fs, parent: nat, name: string)
    requires ShapeOk(fs) && NamesUnique(fs.nodes) && parent in fs.nodes && fs.nodes[parent].kind.Dir?
    requires (parent, name) !in NamesOf(fs.nodes) && '/' !in name
    ensures NamesUnique(CreateFresh(fs, parent, name).nodes)
  {
    var nodes, nodes' := fs.nodes, AddNode(fs.nodes, parent, fs.next, NewFile(parent, name));
    InodesBelow(nodes, fs.next);
    FreshNameFree(nodes, parent, name);
    hide TreeOk, NamesOf;
    forall i, j | i in nodes' && j in nodes' && SameEntry(nodes', i, j)
      ensures i == j
    {
      assert i in nodes && j in nodes ==> (SameEntry(nodes', i, j) <==> SameEntry(nodes, i, j));
    }
  }

  // ---- The catalog ----

  lemma AloneBefore(nodes: Nodes, nodes': Nodes, ino: nat)
    requires SameFiles(nodes, nodes') && ino in nodes && nodes[ino].kind.File? && Alone(nodes', ino)
    ensures Alone(nodes, ino)
  {
    hide FullPath;
  }

  /** Changes that keep files, hashes and dirt keep the catalog in order. */
  lemma CatalogKept(server: State, volume: string, fs: Fs, fs': Fs, tracked: set<nat>)
    requires CatalogOk(server, volume, fs, tracked) && SameFiles(fs.nodes, fs'.nodes)
    requires forall i :: i in tracked ==>
      Dirty(fs', i) || (!Dirty(fs, i) && fs'.nodes[i].fileHash == fs.nodes[i].fileHash)
    ensures CatalogOk(server, volume, fs', tracked)
  {
    hide FullPath, Alone;
    forall i | i in tracked && Alone(fs'.nodes, i)
      ensures Dirty(fs', i) || InCatalog(server, volume, fs', i)
    {
      AloneBefore(fs.nodes, fs'.nodes, i);
    }
  }

  lemma SameFilesRefl(nodes: Nodes)
    ensures SameFiles(nodes, nodes)
  {
    hide FullPath;
  }

  lemma TrackedAreFiles(server: State, volume: string, fs: Fs, tracked: set<nat>)
    requires CatalogOk(server, volume, fs, tracked)
    ensures forall i :: i in tracked ==> IsFile(fs, i)
  {
    hide Alone;
  }

  /** With unique sibling names every file has its path to itself. */
  lemma UniqueAlone(fs: Fs, ino: nat)
    requires ShapeOk(fs) && NamesUnique(fs.nodes) && IsFile(fs, ino)
    ensures Alone(fs.nodes, ino)
  {
    hide FullPath, NamesUnique;
    forall i | i in fs.nodes && fs.nodes[i].kind.File? && FullPath(fs.nodes, i) == FullPath(fs.nodes, ino)
      ensures i == ino
    {
      FullPathInjective(fs.nodes, fs.next, i, ino);
    }
  }

  // ---- Each change keeps the invariants and means what it should ----

  lemma StageContent(server: State, fs: Fs, ino: nat, buf: Bytes)
    requires Linked(server, fs) && IsFile(fs, ino)
    ensures Linked(server, Stage(fs, ino, buf)) && (CacheOk(fs) ==> CacheOk(Stage(fs, ino, buf)))
  {
    var fs' := Stage(fs, ino, buf);
    hide HashBytes;
    forall i | i in fs'.nodes
      ensures InodeOk(server, fs', i)
    {
      assert InodeOk(server, fs, i);
    }
  }

  lemma StageCatalog(
    server: State, volume: string, fs: Fs, tracked: set<nat>, ino: nat, buf: Bytes)
    requires ShapeOk(fs) && CatalogOk(server, volume, fs, tracked) && IsFile(fs, ino)
    ensures CatalogOk(server, volume, Stage(fs, ino, buf), tracked + {ino})
  {
    hide ShapeOk, FullPath, NamesOf, DirsOf, Alone, InCatalog, SameFiles, NamesUnique;
    SetNodeShape(fs, ino, fs.nodes[ino].fileHash, |buf|);
    CatalogKept(server, volume, fs, Stage(fs, ino, buf), tracked);
  }

  lemma StageAbs(fs: Fs, ino: nat, buf: Bytes)
    requires ShapeOk(fs) && IsFile(fs, ino)
    ensures Abs(Stage(fs, ino, buf)) == Edit(Abs(fs), ino, buf)
  {
    hide ShapeOk, FullPath, NamesOf, DirsOf, FilesOf, Content;
    SetNodeShape(fs, ino, fs.nodes[ino].fileHash, |buf|);
    StageFiles(fs, ino, buf);
    assert UnsyncedOf(Stage(fs, ino, buf).open) == UnsyncedOf(fs.open) + {ino};
  }

  lemma StageFiles(fs: Fs, ino: nat, buf: Bytes)
    requires IsFile(fs, ino)
    ensures FilesOf(Stage(fs, ino, buf)) == FilesOf(fs)[ino := buf]
  {
    hide HashBytes;
  }

  lemma StageSizes(fs: Fs, ino: nat, buf: Bytes)
    requires IsFile(fs, ino)
    ensures var fs' := Stage(fs, ino, buf);
            && fs'.nodes[ino].size == |Content(fs', ino)|
            && forall i :: IsFile(fs, i) && i != ino ==>
                 fs'.nodes[i].size == fs.nodes[i].size && Content(fs', i) == Content(fs, i)
  {
  }

  lemma SeedContent(server: State, fs: Fs, ino: nat, buf: Bytes)
    requires Linked(server, fs) && IsFile(fs, ino) && ino !in fs.open && buf == Content(fs, ino)
    ensures Linked(server, Seed(fs, ino, buf)) && (CacheOk(fs) ==> CacheOk(Seed(fs, ino, buf)))
    ensures FilesOf(Seed(fs, ino, buf)) == FilesOf(fs)
  {
    var fs' := Seed(fs, ino, buf);
    hide HashBytes;
    forall i | i in fs'.nodes
      ensures InodeOk(server, fs', i)
    {
      assert InodeOk(server, fs, i);
    }
  }

  lemma SeedEffect(server: State, volume: string, fs: Fs, tracked: set<nat>, ino: nat, buf: Bytes)
    requires Linked(server, fs) && CatalogOk(server, volume, fs, tracked) && IsFile(fs, ino)
    requires ino !in fs.open && buf == Content(fs, ino)
    ensures var fs' := Seed(fs, ino, buf);
            && Linked(server, fs') && CatalogOk(server, volume, fs', tracked) && Abs(fs') == Abs(fs)
            && (SizesOk(fs) ==> SizesOk(fs')) && (CacheOk(fs) ==> CacheOk(fs'))
  {
    hide Linked, CacheOk, FilesOf, FullPath, CatalogOk, SameFiles;
    SeedContent(server, fs, ino, buf);
    assert SameFiles(fs.nodes, fs.nodes) by { SameFilesRefl(fs.nodes); }
    assert forall i :: i in tracked ==> IsFile(fs, i) by { TrackedAreFiles(server, volume, fs, tracked); }
    CatalogKept(server, volume, fs, Seed(fs, ino, buf), tracked);
    assert UnsyncedOf(Seed(fs, ino, buf).open) == UnsyncedOf(fs.open);
  }

  /** Caching a file's bytes keeps everything but, if they are not its own, the cache. */
  lemma RememberContent(server: State, fs: Fs, ino: nat, bytes: Bytes)
    requires Linked(server, fs) && IsFile(fs, ino) && fs.nodes[ino].fileHash.Some?
    ensures var fs' := Remember(fs, ino, bytes);
            && Linked(server, fs') && FilesOf(fs') == FilesOf(fs)
            && (CacheOk(fs) ==> (CacheOk(fs') <==> bytes == HashBytes(fs.nodes[ino].fileHash.value)))
  {
    var fs' := Remember(fs, ino, bytes);
    hide HashBytes;
    forall i | i in fs'.nodes
      ensures InodeOk(server, fs', i)
    {
      assert InodeOk(server, fs, i);
    }
    assert fs'.cache[ino] == bytes;
  }

  lemma RememberEffect(server: State, volume: string, fs: Fs, tracked: set<nat>, ino: nat, bytes: Bytes)
    requires Linked(server, fs) && CatalogOk(server, volume, fs, tracked)
    requires IsFile(fs, ino) && fs.nodes[ino].fileHash.Some?
    ensures var fs' := Remember(fs, ino, bytes);
            && Linked(server, fs') && CatalogOk(server, volume, fs', tracked) && Abs(fs') == Abs(fs)
            && (SizesOk(fs) ==> SizesOk(fs'))
            && (CacheOk(fs) ==> (CacheOk(fs') <==> bytes == HashBytes(fs.nodes[ino].fileHash.value)))
  {
    hide Linked, CacheOk, FullPath, HashBytes, CatalogOk, SameFiles, FilesOf;
    RememberContent(server, fs, ino, bytes);
    assert SameFiles(fs.nodes, fs.nodes) by { SameFilesRefl(fs.nodes); }
    assert forall i :: i in tracked ==> IsFile(fs, i) by { TrackedAreFiles(server, volume, fs, tracked); }
    CatalogKept(server, volume, fs, Remember(fs, ino, bytes), tracked);
  }

  lemma CloseContent(server: State, fs: Fs, ino: nat)
    requires Linked(server, fs) && !Dirty(fs, ino)
    ensures var fs' := Close(fs, ino);
            && Linked(server, fs') && FilesOf(fs') == FilesOf(fs) && (CacheOk(fs) ==> CacheOk(fs'))
            && forall i :: IsFile(fs, i) ==> Content(fs', i) == Content(fs, i)
  {
    var fs' := Close(fs, ino);
    hide HashBytes;
    forall i | i in fs'.nodes
      ensures InodeOk(server, fs', i) && (IsFile(fs, i) ==> Content(fs', i) == Content(fs, i))
    {
      assert InodeOk(server, fs, i);
    }
    assert FilesOf(fs') == FilesOf(fs);
  }

  /** Dropping a clean buffer loses nothing of the intended content, and what is served for the file
      stays its content if it can be fetched without its buffer. */
  lemma CloseEffect(P: Primitives, server: State, volume: string, fs: Fs, tracked: set<nat>, ino: nat)
    requires ServerOk(P, server) && Linked(server, fs) && CatalogOk(server, volume, fs, tracked) && !Dirty(fs, ino)
    ensures var fs' := Close(fs, ino);
            && Linked(server, fs') && CatalogOk(server, volume, fs', tracked) && Abs(fs') == Abs(fs)
            && (SizesOk(fs) ==> SizesOk(fs')) && (CacheOk(fs) ==> CacheOk(fs'))
            && (forall i :: i != ino ==> Served(server, fs', i) == Served(server, fs, i))
            && (CacheOk(fs) && IsFile(fs, ino) && Fetchable(server.files, fs, ino) ==>
                  Served(server, fs', ino) == Content(fs, ino))
  {
    hide ServerOk, Linked, CacheOk, FilesOf, FullPath, Content, CatalogOk, SameFiles, HashBytes, Aligned, Reassembled;
    var fs' := Close(fs, ino);
    CloseContent(server, fs, ino);
    assert SameFiles(fs.nodes, fs.nodes) by { SameFilesRefl(fs.nodes); }
    assert forall i :: i in tracked ==> IsFile(fs, i) by { TrackedAreFiles(server, volume, fs, tracked); }
    CatalogKept(server, volume, fs, fs', tracked);
    assert UnsyncedOf(fs'.open) == UnsyncedOf(fs.open);
    if CacheOk(fs) && IsFile(fs, ino) && Fetchable(server.files, fs, ino) { FetchableServes(P, server, fs', ino); }
  }

  lemma CreateFreshContent(server: State, fs: Fs, parent: nat, name: string)
    requires Linked(server, fs) && parent in fs.nodes && fs.nodes[parent].kind.Dir? && fs.next !in fs.nodes
    ensures var fs' := CreateFresh(fs, parent, name);
            Linked(server, fs') && (SizesOk(fs) ==> SizesOk(fs')) && (CacheOk(fs) ==> CacheOk(fs'))
  {
    var fs' := CreateFresh(fs, parent, name);
    hide HashBytes;
    forall i | i in fs'.nodes
      ensures InodeOk(server, fs', i)
    {
      if i in fs.nodes { assert InodeOk(server, fs, i); }
    }
    assert fs.next !in fs.cache && fs.next !in fs.open;
  }

  lemma CreateFreshNames(nodes: Nodes, parent: nat, next: nat, name: string)
    requires parent in nodes && next !in nodes && next > ROOT
    ensures NamesOf(AddNode(nodes, parent, next, NewFile(parent, name))) == NamesOf(nodes) + {(parent, name)}
  {
    var nodes' := AddNode(nodes, parent, next, NewFile(parent, name));
    NamesSubset(nodes, nodes');
    assert (nodes'[next].parent, nodes'[next].name) == (parent, name);
    forall e | e in NamesOf(nodes')
      ensures e in NamesOf(nodes) + {(parent, name)}
    {
      var i :| i in nodes' && i != ROOT && (nodes'[i].parent, nodes'[i].name) == e;
      assert i != next ==> (nodes[i].parent, nodes[i].name) == e;
    }
  }

  lemma CreateFreshAbs(server: State, fs: Fs, parent: nat, name: string)
    requires Linked(server, fs) && parent in fs.nodes && fs.nodes[parent].kind.Dir?
    requires fs.next !in fs.nodes && fs.next > ROOT
    ensures Abs(CreateFresh(fs, parent, name)) == PlainStep(Abs(fs), Create(parent, name)).0
  {
    var fs' := CreateFresh(fs, parent, name);
    CreateFreshNames(fs.nodes, parent, fs.next, name);
    CreateFreshFiles(server, fs, parent, name);
    hide NamesOf, Linked, FilesOf, DirsOf;
    assert UnsyncedOf(fs'.open) == UnsyncedOf(fs.open) + {fs.next};
  }

  lemma CreateFreshFiles(server: State, fs: Fs, parent: nat, name: string)
    requires Linked(server, fs) && parent in fs.nodes && fs.nodes[parent].kind.Dir? && fs.next !in fs.nodes
    ensures var fs' := CreateFresh(fs, parent, name);
            FilesOf(fs') == FilesOf(fs)[fs.next := []] && DirsOf(fs'.nodes) == DirsOf(fs.nodes)
  {
    var fs' := CreateFresh(fs, parent, name);
    hide HashBytes, InodeOk;
    forall i | i in fs'.nodes
      ensures IsFile(fs', i) <==> i == fs.next || IsFile(fs, i)
      ensures IsFile(fs', i) ==> Content(fs', i) == if i == fs.next then [] else Content(fs, i)
    {
    }
    hide Linked, CreateFresh, Content;
    FilesFrom(fs', FilesOf(fs)[fs.next := []]);
  }

  lemma FilesFrom(fs: Fs, files: map<nat, Bytes>)
    requires forall i :: i in files <==> IsFile(fs, i)
    requires forall i :: i in files && IsFile(fs, i) ==> files[i] == Content(fs, i)
    ensures FilesOf(fs) == files
  {
    hide Content;
  }

  lemma CreateFreshCatalog(
    server: State, volume: string, fs: Fs, tracked: set<nat>, parent: nat, name: string)
    requires CatalogOk(server, volume, fs, tracked) && parent in fs.nodes && fs.next !in fs.nodes
    requires fs.nodes[parent].kind.Dir? && SameFiles(fs.nodes, CreateFresh(fs, parent, name).nodes)
    ensures CatalogOk(server, volume, CreateFresh(fs, parent, name), tracked + {fs.next})
  {
    hide FullPath, Alone, InCatalog, SameFiles;
    CatalogKept(server, volume, fs, CreateFresh(fs, parent, name), tracked);
  }

  // ---- Write-back ----

  lemma GroupPacks(chunks: seq<Chunk>, locs: Locs, i: nat)
    requires i < |locs| == |chunks| && locs[i].None?
    ensures PackableGroup(chunks[i..GroupEnd(chunks, locs, i)])
  {
    hide GroupEnd, TotalLen;
    GroupEndMaximal(chunks, locs, i);
  }

  lemma {:induction false} PlanPacks(P: Primitives, bytes: Bytes, locs: Locs, i: nat)
    requires i <= |locs| == |P.chunker(bytes)| && PacksAll(P)
    ensures Packable(P, P.chunker(bytes), locs, i)
    decreases |locs| - i
  {
    hide PackableGroup, GroupEnd;
    if i < |locs| {
      var j := GroupEnd(P.chunker(bytes), locs, i);
      if locs[i].None? {
        GroupPacks(P.chunker(bytes), locs, i);
        assert P.serialize(P.chunker(bytes)[i..j]).Some?;
      }
      PlanPacks(P, bytes, locs, j);
    }
  }

  /** On a ready server every ingest goes through and leaves a ready server. */
  lemma ReadyIngest(P: Primitives, server: State, bytes: Bytes, key: CatalogKey)
    requires Lawful(P) && PacksAll(P) && ServerReady(P, server)
    ensures CanIngest(P, server, bytes) && ServerReady(P, Ingested(P, server, bytes, key))
  {
    hide Lawful, PacksAll, Healthy, NovelXorbs, UploadsFrom, Packable, DedupComplete, Extends, Plan;
    var chunks, locs := P.chunker(bytes), IngestLocs(P, server, bytes);
    PlanPacks(P, bytes, locs, 0);
    UploadsEffect(P, server, chunks, locs, 0);
    IngestedIsHealthy(P, server, bytes, key);
  }

  /** Storing a file keeps a tree readable exactly when the record it registers is aligned, which
      content without repeated chunks always gives. */
  lemma IngestKeepsReadable(
    P: Primitives, server: State, nodes: Nodes, nodes': Nodes, ino: nat, bytes: Bytes, key: CatalogKey)
    requires Lawful(P) && Healthy(P, server) && ino in nodes && AllReadable(server.files, nodes)
    requires nodes' == nodes[ino := nodes[ino].(fileHash := Some(FileHash(P.chunker(bytes))), size := |bytes|)]
    ensures AllReadable(Ingested(P, server, bytes, key).files, nodes') <==>
      Aligned(IngestRecord(P, server, bytes).terms)
    ensures Distinct(P.chunker(bytes)) ==> Aligned(IngestRecord(P, server, bytes).terms)
  {
    hide Lawful, Healthy, UploadsFrom, Aligned, Distinct, Plan, TermsOk, Covered, TotalLen;
    IngestOnlyAdds(P, server, bytes);
    var fh, record := FileHash(P.chunker(bytes)), IngestRecord(P, server, bytes);
    assert Ingested(P, server, bytes, key).files == server.files[fh := record];
    assert nodes'[ino].fileHash == Some(fh);
    if Distinct(P.chunker(bytes)) {
      HealthyIsSound(P, server);
      LawfulChunks(P);
      IngestRecordOk(P, server, bytes);
      DistinctChunksAlign(record.terms);
    }
  }

  lemma LawfulChunks(P: Primitives)
    requires Lawful(P)
    ensures LawfulChunker(P)
  {
  }

  lemma IngestOnlyAdds(P: Primitives, server: State, bytes: Bytes)
    requires Lawful(P) && Healthy(P, server)
    ensures AfterUploads(P, server, bytes).files == server.files
      && AfterUploads(P, server, bytes).catalog == server.catalog
  {
    hide Lawful, Healthy, UploadsFrom, DedupComplete, NovelXorbs, Packable;
    UploadsEffect(P, server, P.chunker(bytes), IngestLocs(P, server, bytes), 0);
  }

  lemma StoredContent(server: State, server': State, fs: Fs, ino: nat, fh: FileHash, buf: Bytes)
    requires Linked(server, fs) && IsFile(fs, ino) && ino in fs.open && buf == fs.open[ino].buf == HashBytes(fh)
    requires server.files.Keys <= server'.files.Keys && fh in server'.files
    ensures var fs' := Stored(fs, ino, fh, buf); Linked(server', fs') && (CacheOk(fs) ==> CacheOk(fs'))
  {
    var fs' := Stored(fs, ino, fh, buf);
    hide HashBytes;
    forall i | i in fs'.nodes
      ensures InodeOk(server', fs', i)
    {
      assert InodeOk(server, fs, i);
    }
  }

  /** Only the written path's catalog entry moves, and it is then the file's own. */
  lemma StoredCatalog(
    server: State, server': State, volume: string, fs: Fs, tracked: set<nat>, ino: nat,
      fh: FileHash, buf: Bytes)
    requires ShapeOk(fs) && CatalogOk(server, volume, fs, tracked) && IsFile(fs, ino)
    requires server'.catalog == server.catalog[(volume, FullPath(fs.nodes, ino)) := fh]
    ensures CatalogOk(server', volume, Stored(fs, ino, fh, buf), tracked)
    ensures InCatalog(server', volume, Stored(fs, ino, fh, buf), ino)
  {
    hide ShapeOk, FullPath, NamesOf, DirsOf, NamesUnique, Alone, SameFiles;
    var fs' := Stored(fs, ino, fh, buf);
    SetNodeShape(fs, ino, Some(fh), |buf|);
    assert FullPath(fs'.nodes, ino) == FullPath(fs.nodes, ino) by { PathOfFile(fs.nodes, fs'.nodes, ino); }
    forall i | i in tracked && Alone(fs'.nodes, i)
      ensures Dirty(fs', i) || InCatalog(server', volume, fs', i)
    {
      AloneBefore(fs.nodes, fs'.nodes, i);
      PathOfFile(fs.nodes, fs'.nodes, i);
      if i != ino { OtherPath(fs.nodes, i, ino); }
    }
  }

  lemma PathOfFile(nodes: Nodes, nodes': Nodes, i: nat)
    requires SameFiles(nodes, nodes') && i in nodes && nodes[i].kind.File?
    ensures i in nodes' && nodes'[i].kind.File? && FullPath(nodes', i) == FullPath(nodes, i)
  {
    hide FullPath;
  }

  lemma OtherPath(nodes: Nodes, i: nat, ino: nat)
    requires Alone(nodes, i) && ino in nodes && nodes[ino].kind.File? && i != ino
    ensures FullPath(nodes, i) != FullPath(nodes, ino)
  {
    hide FullPath;
  }

  lemma StoredFiles(fs: Fs, ino: nat, fh: FileHash, buf: Bytes)
    requires IsFile(fs, ino) && ino in fs.open && buf == fs.open[ino].buf
    ensures FilesOf(Stored(fs, ino, fh, buf)) == FilesOf(fs)
    ensures forall i :: IsFile(fs, i) ==> Content(Stored(fs, ino, fh, buf), i) == Content(fs, i)
    ensures Stored(fs, ino, fh, buf).nodes[ino].size == |Content(fs, ino)|
  {
    hide HashBytes;
  }

  lemma StoredAbs(fs: Fs, ino: nat, fh: FileHash, buf: Bytes)
    requires ShapeOk(fs) && IsFile(fs, ino) && ino in fs.open && buf == fs.open[ino].buf
    ensures Abs(Stored(fs, ino, fh, buf)) == Abs(fs).(unsynced := Abs(fs).unsynced - {ino})
    ensures SizesOk(fs) ==> SizesOk(Stored(fs, ino, fh, buf))
  {
    hide ShapeOk, FullPath, NamesOf, DirsOf, FilesOf, Content;
    SetNodeShape(fs, ino, Some(fh), |buf|);
    StoredFiles(fs, ino, fh, buf);
    assert UnsyncedOf(Stored(fs, ino, fh, buf).open) == UnsyncedOf(fs.open) - {ino};
  }

  /** A clean file carries the very hash a from-scratch ingest of its current bytes would give. */
  lemma CleanHash(P: Primitives, server: State, fs: Fs, ino: nat)
    requires Healthy(P, server) && Linked(server, fs) && IsFile(fs, ino) && !Dirty(fs, ino)
    ensures fs.nodes[ino].fileHash == Some(FileHash(P.chunker(Content(fs, ino))))
  {
    hide OffsetsMatchBlobs, DedupSound, Flatten, Covered, TermsOk, TotalLen;
    assert InodeOk(server, fs, ino);
    assert FileStored(P, server, fs.nodes[ino].fileHash.value);
  }

  // ---- Create over an existing name ----

  function Reopen(fs: Fs, ino: nat): Fs {
    fs.(open := fs.open[ino := Staging([], true)])
  }

  lemma ReopenFiles(fs: Fs, ino: nat)
    requires IsFile(fs, ino)
    ensures var fs' := Reopen(fs, ino);
            && FilesOf(fs') == FilesOf(fs)[ino := []] && UnsyncedOf(fs'.open) == UnsyncedOf(fs.open) + {ino}
            && (forall i :: IsFile(fs, i) && i != ino ==> Content(fs', i) == Content(fs, i))
            && IsFile(fs', ino) && Content(fs', ino) == []
  {
    hide HashBytes;
  }

  lemma ReopenSizes(fs: Fs, ino: nat)
    requires IsFile(fs, ino) && SizesOk(fs)
    ensures SizesOk(Reopen(fs, ino)) <==> fs.nodes[ino].size == 0
  {
    ReopenFiles(fs, ino);
    hide FilesOf, UnsyncedOf, Content;
  }

  lemma ReopenEffect(server: State, volume: string, fs: Fs, tracked: set<nat>, ino: nat)
    requires Linked(server, fs) && CatalogOk(server, volume, fs, tracked) && IsFile(fs, ino)
    ensures var fs' := Reopen(fs, ino);
            && Linked(server, fs') && CatalogOk(server, volume, fs', tracked + {ino}) && (CacheOk(fs) ==> CacheOk(fs'))
            && FilesOf(fs') == FilesOf(fs)[ino := []] && UnsyncedOf(fs'.open) == UnsyncedOf(fs.open) + {ino}
            && (SizesOk(fs) ==> (SizesOk(fs') <==> fs.nodes[ino].size == 0))
  {
    hide FullPath, HashBytes, SizesOk, FilesOf, UnsyncedOf, Alone;
    var fs' := Reopen(fs, ino);
    ReopenFiles(fs, ino);
    if SizesOk(fs) { ReopenSizes(fs, ino); }
    forall i | i in fs'.nodes
      ensures InodeOk(server, fs', i)
    {
      assert InodeOk(server, fs, i);
    }
  }

  /** Over a directory's name, create gives the directory a buffer waiting to be written back, which no
      mount in order has. */
  lemma ReopenDirBreaks(server: State, fs: Fs, ino: nat)
    requires ino in fs.nodes && fs.nodes[ino].kind.Dir?
    ensures !Linked(server, Reopen(fs, ino))
  {
    var fs' := Reopen(fs, ino);
    assert ino in fs'.open && !InodeOk(server, fs', ino);
  }
}
