/** The writable mount: FUSE operations over the inode tree, with staging buffers that are written
    back through the agent. */
module Xetfs {
  import opened Basics
  import opened XorbFormat
  import opened ServerModel
  import opened Planner
  import opened Xetd
  import opened Reading
  import Agent
  import opened PlainFiles
  import opened InodeTree
  import opened MountModel
  import opened MountSteps
  import opened MountRuns
  import opened TreeBuild

  /** Every listed entry names a registered file, with its size. */
  ghost predicate ListedIn(st: State, entries: seq<Entry>) {
    forall k :: 0 <= k < |entries| ==>
      entries[k].fileHash in st.files && entries[k].size == st.files[entries[k].fileHash].totalSize
  }

  lemma BuiltTreeOk(
    P: Primitives, st: State, nodes: Nodes, dirs: DirMap, next: nat, entries: seq<Entry>, leaf: map<nat, nat>)
    requires ServerOk(P, st) && ListedIn(st, entries)
    requires TreeInv(nodes, dirs, next) && LeavesOk(nodes, entries, leaf)
    ensures var fs := Fs(nodes, map[], map[], next); ShapeOk(fs) && ContentOk(st, fs) && SizesOk(fs)
  {
    var fs := Fs(nodes, map[], map[], next);
    hide TreeOk, PlainNames, DirsMapped, Parts, Comps, Named, Flatten;
    forall i | i in nodes
      ensures InodeOk(st, fs, i) && (nodes[i].kind.File? ==> nodes[i].size == |Content(fs, i)|)
    {
      if nodes[i].kind.File? {
        var k :| k in leaf && leaf[k] == i;
        assert LeafOk(nodes, entries[k], i);
        HashSize(P, st, entries[k].fileHash);
      }
    }
  }

  lemma HashSize(P: Primitives, st: State, fh: FileHash)
    requires ServerOk(P, st) && fh in st.files
    ensures st.files[fh].totalSize == |HashBytes(fh)|
  {
    assert FileStored(P, st, fh);
    FlattenLength(fh.chunks);
  }

  /** Every entry is a file under its path, with the content its hash stands for. */
  ghost predicate MountedAs(fs: Fs, entries: seq<Entry>, leaf: map<nat, nat>) {
    && LeavesOk(fs.nodes, entries, leaf)
    && forall k :: k in leaf ==> LeafMounted(fs, entries[k], leaf[k])
  }

  ghost predicate LeafMounted(fs: Fs, e: Entry, ino: nat) {
    && IsFile(fs, ino) && FullPath(fs.nodes, ino) == "/" + TrimStart(e.path)
    && fs.nodes[ino].fileHash == Some(e.fileHash) && Content(fs, ino) == HashBytes(e.fileHash)
  }

  lemma BuiltMounted(nodes: Nodes, next: nat, entries: seq<Entry>, leaf: map<nat, nat>)
    requires LeavesOk(nodes, entries, leaf)
    ensures MountedAs(Fs(nodes, map[], map[], next), entries, leaf)
  {
    hide Parts, Comps, Named, FullPath, TrimStart, HashBytes;
    var fs := Fs(nodes, map[], map[], next);
    forall k | k in leaf
      ensures LeafMounted(fs, entries[k], leaf[k])
    {
      assert LeafOk(nodes, entries[k], leaf[k]);
      PathOfLeaf(nodes, entries, leaf, k);
    }
  }

  /** The tree of a listing reads back exactly if every named entry's file does. */
  lemma BuiltReadable(files: map<FileHash, FileRecord>, nodes: Nodes, entries: seq<Entry>, leaf: map<nat, nat>)
    requires LeavesOk(nodes, entries, leaf)
    ensures AllReadable(files, nodes) <==>
            forall k :: 0 <= k < |entries| && Named(entries[k]) ==> HashReadable(files, entries[k].fileHash)
  {
    hide HashReadable, Parts, Comps, Named;
    if AllReadable(files, nodes) {
      forall k | 0 <= k < |entries| && Named(entries[k])
        ensures HashReadable(files, entries[k].fileHash)
      {
        assert LeafOk(nodes, entries[k], leaf[k]);
      }
    } else {
      var i :| i in nodes && nodes[i].fileHash.Some? && !HashReadable(files, nodes[i].fileHash.value);
      var k :| k in leaf && leaf[k] == i;
      assert LeafOk(nodes, entries[k], i);
    }
  }

  /** Mount a volume from its listing: every entry becomes a file under its path, with its hash and size,
      and the mount starts in order.  Siblings have different names, so that lookups reach every file,
      exactly if no path of the listing is a prefix of another.  All files read back exactly if all their
      records are aligned. */
  method Connect(server: Server, volume: string, entries: seq<Entry>) returns (m: Mount, ghost leaf: map<nat, nat>)
    requires server.Valid() && PacksAll(server.P) && ServerReady(server.P, server.View())
    requires ListedIn(server.View(), entries)
    ensures fresh(m) && m.server == server && m.volume == volume && m.Base() && SizesOk(m.View())
    ensures m.openFiles == map[] && m.cache == map[] && m.tracked == {}
    ensures MountedAs(m.View(), entries, leaf)
    ensures m.Readable() <==>
            forall k :: 0 <= k < |entries| && Named(entries[k]) ==> HashReadable(server.files, entries[k].fileHash)
    ensures NamesUnique(m.nodes) <==> PrefixFree(entries)
    ensures PrefixFree(entries) ==> forall k :: k in leaf ==> Walk(m.nodes, Comps(entries[k])) == Some(leaf[k])
    ensures (ROOT, "") !in NamesOf(m.nodes) && 1 in m.nodes && m.nodes[1].kind.Dir? && m.nodes[1].parent == 1
  {
    hide ServerOk, Lawful, PacksAll, ServerReady, ListedIn, PrefixFree, TreeInv, Walk, Comps, TreeOk, LeafMounted,
      Linked, CacheOk, SizesOk, NamesUnique, AllReadable, HashReadable, Named, NamesOf;
    var nodes, next;
    ghost var dirs;
    nodes, next, dirs, leaf := BuildTree(entries);
    BuiltTreeOk(server.P, server.View(), nodes, dirs, next, entries, leaf);
    BuiltMounted(nodes, next, entries, leaf);
    BuiltReadable(server.files, nodes, entries, leaf);
    UniqueIffPrefixFree(nodes, dirs, next, entries, leaf);
    RootNamesNotEmpty(nodes, next, entries, leaf);
    forall k | k in leaf && PrefixFree(entries)
      ensures Walk(nodes, Comps(entries[k])) == Some(leaf[k])
    {
      WalkReachesLeaf(nodes, dirs, next, entries, leaf, k);
    }
    m := new Mount(server, volume, nodes, next);
    RootIsRoot(nodes, next);
  }

  lemma RootIsRoot(nodes: Nodes, next: nat)
    requires TreeOk(nodes, next)
    ensures 1 in nodes && nodes[1].kind.Dir? && nodes[1].parent == 1
  {
  }

  lemma RootNamesNotEmpty(nodes: Nodes, next: nat, entries: seq<Entry>, leaf: map<nat, nat>)
    requires TreeOk(nodes, next) && LeavesOk(nodes, entries, leaf)
    ensures (ROOT, "") !in NamesOf(nodes)
  {
    hide Comps, Named;
    if (ROOT, "") in NamesOf(nodes) {
      var i :| i in nodes && i != ROOT && (nodes[i].parent, nodes[i].name) == (ROOT, "");
      assert NodeOk(nodes, next, i);
      assert Parts(nodes, i) == [""];
      if nodes[i].kind.File? {
        var k :| k in leaf && leaf[k] == i;
        assert LeafOk(nodes, entries[k], i);
        FirstCompNonEmpty(entries[k]);
      } else {
        var k :| k in leaf && Parts(nodes, i) < Comps(entries[k]);
        FirstCompNonEmpty(entries[k]);
      }
    }
  }

  class Mount {
    const server: Server
    const volume: string
    var nodes: Nodes
    var openFiles: map<nat, Staging>
    var cache: map<nat, Bytes>
    var next: nat

    /** The files this mount has edited, for whose catalog entries it answers. */
    ghost var tracked: set<nat>

    /** A mount over a tree built from the catalog, with nothing open and nothing cached. */
    constructor (server: Server, volume: string, nodes: Nodes, next: nat)
      requires server.Valid() && PacksAll(server.P) && ServerReady(server.P, server.View())
      requires ShapeOk(Fs(nodes, map[], map[], next)) && Linked(server.View(), Fs(nodes, map[], map[], next))
      ensures Base() && View() == Fs(nodes, map[], map[], next) && this.server == server && this.volume == volume
      ensures tracked == {}
    {
      this.server, this.volume := server, volume;
      this.nodes, this.next := nodes, next;
      openFiles, cache, tracked := map[], map[], {};
    }

    ghost function View(): Fs
      reads this
    {
      Fs(nodes, openFiles, cache, next)
    }

    ghost function Now(): Mounted
      reads this, server
    {
      Mounted(server.View(), View())
    }

    /** In order, whatever the server's records decode to. */
    ghost predicate InOrder()
      reads this, server
    {
      server.Valid() && PacksAll(server.P) && Orderly(server.P, volume, Now(), tracked)
    }

    /** In order, with nothing wrong in the cache. */
    ghost predicate Base()
      reads this, server
    {
      InOrder() && CacheOk(View())
    }

    /** Every file of this mount that has been stored reads back by its hash. */
    ghost predicate Readable()
      reads this, server
    {
      AllReadable(server.files, nodes)
    }

    /** Reconstruct a file's bytes, cached per inode.  They are those its hash stands for if the cache is
        right and the file is cached or its record aligned. */
    method FileBytes(ino: nat) returns (bytes: Option<Bytes>)
      requires InOrder()
      modifies this`cache
      ensures InOrder() && bytes == old(StoredBytes(server.View(), View(), ino))
      ensures View() == if bytes.Some? then Remember(old(View()), ino, bytes.value) else old(View())
      ensures bytes.Some? ==> ino in cache && cache[ino] == bytes.value
      ensures Abs(View()) == old(Abs(View())) && (old(SizesOk(View())) ==> SizesOk(View()))
      ensures old(Base()) && old(Fetchable(server.files, View(), ino)) ==>
        && Base()
        && (IsFile(View(), ino) && nodes[ino].fileHash.Some? ==> bytes == Some(HashBytes(nodes[ino].fileHash.value)))
        && (bytes.Some? ==> IsFile(View(), ino) && nodes[ino].fileHash.Some?)
    {
      hide PacksAll, ServerReady, ServerOk, Lawful, TreeOk, CatalogOk, CacheOk, SizesOk, Abs, HashBytes, Aligned,
        Reassembled;
      ghost var fs, st := View(), server.View();
      if CacheOk(fs) && Fetchable(server.files, fs, ino) { FetchableServes(server.P, st, fs, ino); }
      if ino in cache {
        assert cache[ino := cache[ino]] == cache;
        return Some(cache[ino]);
      }
      if ino !in nodes || nodes[ino].fileHash.None? {
        return None;
      }
      var fh := nodes[ino].fileHash.value;
      assert InodeOk(st, fs, ino);
      var r := Agent.ReconstructStored(server, fh);
      RememberEffect(st, volume, fs, tracked, ino, r.value);
      cache := cache[ino := r.value];
      bytes := Some(r.value);
    }

    /** A staging buffer exists afterwards, seeded with what the mount takes for the current bytes. */
    method EnsureStaging(ino: nat)
      requires InOrder() && IsFile(View(), ino)
      modifies this`cache, this`openFiles
      ensures var fetched, served := old(Fetched(server.View(), View(), ino)), old(Served(server.View(), View(), ino));
              View() == if ino in old(openFiles) then old(View()) else Seed(fetched, ino, served)
      ensures ino in openFiles && openFiles[ino].buf == old(Served(server.View(), View(), ino))
      ensures old(Base()) && old(CanRead(server.files, View(), ino)) ==>
        && Base() && Abs(View()) == old(Abs(View())) && (old(SizesOk(View())) ==> SizesOk(View()))
        && openFiles[ino].buf == old(Content(View(), ino))
    {
      hide PacksAll, ServerReady, ServerOk, Lawful, TreeOk, CatalogOk, CacheOk, SizesOk, Abs, HashBytes, Linked,
        Content, Fetchable, Server.Valid;
      if ino in openFiles {
        assert openFiles[ino].buf == Content(View(), ino) by { OpenContent(View(), ino); }
        return;
      }
      ghost var right := Base() && CanRead(server.files, View(), ino);
      ghost var content := Content(View(), ino);
      if right { ServesContent(server.P, Now(), ino); }
      var bytes := FileBytes(ino);
      var buf := if bytes.Some? then bytes.value else [];
      if right {
        assert Content(View(), ino) == content by { SameContent(old(View()), View(), ino); }
        SeedEffect(server.View(), volume, View(), tracked, ino, buf);
      }
      openFiles := openFiles[ino := Staging(buf, false)];
    }

    /** Replace a file's buffer: dirty, with the node's size following. */
    method StageBuffer(ino: nat, buf: Bytes)
      requires IsFile(View(), ino)
      modifies this`openFiles, this`nodes, this`tracked
      ensures View() == Stage(old(View()), ino, buf) && tracked == old(tracked) + {ino}
    {
      openFiles := openFiles[ino := Staging(buf, true)];
      nodes := nodes[ino := nodes[ino].(size := |buf|)];
      tracked := tracked + {ino};
    }

    /** What a legal request has done, said once for all of them: the state and the answer are those of
        the step, the mount is in order, and if the content was to be had it acted as the plain model. */
    ghost predicate Performed(was: Mounted, tracked0: set<nat>, op: Op, reply: Reply)
      reads this, server
    {
      && InOrder() && (Now(), reply) == MountStep(server.P, volume, was, op)
      && tracked == tracked0 + Edits(Abs(was.fs), op)
      && (NamesUnique(was.fs.nodes) ==> NamesUnique(nodes))
      && (CacheOk(was.fs) && CanServe(was.server.files, was.fs, op) ==>
            && CacheOk(View()) && (Abs(View()), reply) == PlainStep(Abs(was.fs), op)
            && (SizesOk(was.fs) ==> SizesOk(View())))
    }

    /** The step taken is the whole proof that a request was performed. */
    lemma StepPerformed(was: Mounted, tracked0: set<nat>, op: Op, reply: Reply)
      requires server.Valid() && PacksAll(server.P)
      requires Orderly(server.P, volume, was, tracked0) && Legal(Abs(was.fs), op)
      requires (Now(), reply) == MountStep(server.P, volume, was, op) && tracked == tracked0 + Edits(Abs(was.fs), op)
      ensures Performed(was, tracked0, op, reply)
    {
      hide PacksAll, Orderly, Lawful, ServerOk, MountStep, Abs, CacheOk, SizesOk, NamesUnique, CanServe, Legal,
        Edits, PlainStep;
      StepOrderly(server.P, volume, was, tracked0, op);
      if CacheOk(was.fs) && CanServe(was.server.files, was.fs, op) { StepRefines(server.P, volume, was, tracked0, op); }
    }

    /** Overwrite `data` at `offset`, zero-filling any gap.  A negative offset counts as zero. */
    method WriteFile(ino: nat, offset: int, data: Bytes) returns (count: nat)
      requires InOrder() && IsFile(View(), ino)
      modifies this
      ensures Performed(old(Now()), old(tracked), Write(ino, offset, data), Written(count)) && count == |data|
      ensures ino in openFiles && ino in nodes && nodes[ino].size == |openFiles[ino].buf|
      ensures openFiles[ino] == Staging(WriteAt(old(Served(server.View(), View(), ino)), Max(offset, 0), data), true)
    {
      hide Orderly, PacksAll, Server.Valid, CacheOk, SizesOk, WriteAt, Resize, Served, StoredBytes, Performed,
        CanRead, Content, NamesOf, DirsOf, UnsyncedOf;
      ghost var was, tracked0, served := Now(), tracked, Served(server.View(), View(), ino);
      EnsureStaging(ino);
      var off := Max(offset, 0);
      var end := off + |data|;
      var buf := openFiles[ino].buf;
      if |buf| < end {
        buf := Resize(buf, end);
      }
      buf := buf[..off] + data + buf[end..];
      OverwriteIsWriteAt(served, off, data);
      FetchedNodes(was.server, was.fs, ino);
      StageBuffer(ino, buf);
      count := |data|;
      assert View() == EditStep(was, ino, buf).fs;
      StepPerformed(was, tracked0, Write(ino, offset, data), Written(count));
    }

    /** `setattr`: truncate or zero-extend when a size is given; the answer is the node's size. */
    method SetAttr(ino: nat, size: Option<nat>) returns (attr: Option<nat>)
      requires InOrder() && (size.Some? ==> IsFile(View(), ino))
      modifies this
      ensures size.None? ==> View() == old(View()) && tracked == old(tracked)
      ensures size.Some? ==>
        && Performed(old(Now()), old(tracked), SetSize(ino, size.value), Attr(size.value)) && attr == Some(size.value)
        && ino in openFiles
        && openFiles[ino] == Staging(Resize(old(Served(server.View(), View(), ino)), size.value), true)
      ensures attr == if ino in nodes then Some(nodes[ino].size) else None
    {
      hide Orderly, PacksAll, Server.Valid, CacheOk, SizesOk, Resize, Served, StoredBytes, Performed, CanRead, Content,
        NamesOf, DirsOf, UnsyncedOf;
      ghost var was, tracked0 := Now(), tracked;
      if size.Some? {
        EnsureStaging(ino);
        FetchedNodes(was.server, was.fs, ino);
        var buf := Resize(openFiles[ino].buf, size.value);
        StageBuffer(ino, buf);
        assert View() == EditStep(was, ino, buf).fs;
        StepPerformed(was, tracked0, SetSize(ino, size.value), Attr(size.value));
      }
      attr := if ino in nodes then Some(nodes[ino].size) else None;
    }

    /** The clamped slice of `served` for a file, which is cached from then on unless it has a buffer. */
    ghost predicate ReadGave(served: Bytes, ino: nat, offset: int, size: nat, reply: Reply)
      reads this
    {
      && reply == (if IsFile(View(), ino) then Data(Slice(served, Max(offset, 0), size)) else NoEntry)
      && (reply.Data? && ino !in openFiles ==> ino in cache && cache[ino] == served)
    }

    /** Read-your-writes: from the staging buffer while there is one, else from the store. */
    method ReadFile(ino: nat, offset: int, size: nat) returns (reply: Reply)
      requires InOrder()
      modifies this`cache
      ensures Performed(old(Now()), old(tracked), Read(ino, offset, size), reply)
      ensures ReadGave(old(Served(server.View(), View(), ino)), ino, offset, size, reply)
    {
      hide ServerReady, TreeOk, Linked, CatalogOk, PacksAll, Server.Valid, CacheOk, SizesOk, Slice, Abs, Fetchable,
        Performed, Reassembled;
      ghost var was, tracked0 := Now(), tracked;
      FileIsStored(was.server, was.fs, ino);
      assert tracked0 + {} == tracked0;
      var off := Max(offset, 0);
      if ino in openFiles {
        reply := Data(Slice(openFiles[ino].buf, off, size));
      } else {
        var bytes := FileBytes(ino);
        reply := if bytes.Some? then Data(Slice(bytes.value, off, size)) else NoEntry;
      }
      StepPerformed(was, tracked0, Read(ino, offset, size), reply);
    }

    /** The catalog entry of the file's path is the content hash of its current bytes. */
    ghost predicate Published(ino: nat)
      reads this, server
    {
      var key := (volume, FullPath(nodes, ino));
      && key in server.catalog && IsFile(View(), ino)
      && nodes[ino].fileHash == Some(server.catalog[key])
      && server.catalog[key] == FileHash(server.P.chunker(Content(View(), ino)))
    }

    /** Write a dirty buffer back through the agent. */
    method FlushIfDirty(ino: nat)
      requires InOrder()
      modifies this, server
      ensures InOrder() && Now() == FlushStep(server.P, volume, old(Now()), ino) && tracked == old(tracked)
      ensures !Dirty(View(), ino) && (old(Dirty(View(), ino)) ==> ino !in cache)
      ensures old(Readable()) ==> (Readable() <==> StoresAligned(server.P, old(Now()), ino))
      ensures old(Dirty(View(), ino)) || (ino in tracked && Alone(nodes, ino)) ==> Published(ino)
    {
      hide PacksAll, ServerReady, ServerOk, Lawful, TreeOk, SizesOk, HashBytes, AllReadable, Abs, FullPath, Aligned,
        Agent.IngestRecord, Agent.Ingested, NamesUnique, Alone, Stored, StoresAligned, CacheOk, SameFiles, Storable;
      ghost var was := Now();
      if Readable() { FlushReadable(server.P, volume, was, tracked, ino); }
      FlushEffect(server.P, volume, was, tracked, ino);
      if ino in openFiles && openFiles[ino].dirty {
        assert ino in nodes;
        WriteBack(ino);
      }
      if IsFile(View(), ino) {
        ReadyIsOk(server.P, server.View());
        CleanHash(server.P, server.View(), View(), ino);
      }
    }

    /** The ingest and bookkeeping of one write-back. */
    method WriteBack(ino: nat)
      requires InOrder() && Dirty(View(), ino)
      modifies this, server
      ensures server.Valid() && tracked == old(tracked) && ino !in cache
      ensures var buf, key := old(openFiles[ino].buf), (volume, old(FullPath(nodes, ino)));
        && server.View() == Agent.Ingested(server.P, old(server.View()), buf, key) && ino in old(nodes)
        && View() == Stored(old(View()), ino, FileHash(server.P.chunker(buf)), buf)
    {
      hide PacksAll, ServerReady, ServerOk, Lawful, FullPath, Agent.CanIngest, Agent.AfterUploads,
        Agent.IngestRecord, TreeOk, CatalogOk, InodeOk;
      ghost var fs, st, P := View(), server.View(), server.P;
      var buf := openFiles[ino].buf;
      openFiles := openFiles[ino := Staging(buf, false)];
      var path := ComputeFullPath(nodes, next, ino);
      ReadyIngest(P, st, buf, (volume, path));
      var ingested := Agent.IngestBytes(server, volume, path, buf);
      match ingested {
        case Err(_) =>
        case Ok(fh) =>
          nodes := nodes[ino := nodes[ino].(fileHash := Some(fh), size := |buf|)];
          cache := cache - {ino};
          assert View() == Stored(fs, ino, fh, buf);
      }
    }

    /** `fsync` and `flush`: whatever the history of an edited file, the catalog entry of its path is
        then the content hash of its current bytes. */
    method Sync(ino: nat)
      requires InOrder()
      modifies this, server
      ensures Performed(old(Now()), old(tracked), Fsync(ino), Done)
      ensures Performed(old(Now()), old(tracked), Flush(ino), Done)
      ensures old(Readable()) ==> (Readable() <==> StoresAligned(server.P, old(Now()), ino))
      ensures old(Dirty(View(), ino)) || (ino in tracked && Alone(nodes, ino)) ==> Published(ino)
    {
      hide PacksAll, Orderly, AllReadable, Alone, StoresAligned, Published, FlushStep, Performed, Server.Valid, Abs;
      ghost var was, tracked0 := Now(), tracked;
      assert tracked0 + {} == tracked0;
      FlushIfDirty(ino);
      StepPerformed(was, tracked0, Fsync(ino), Done);
      StepPerformed(was, tracked0, Flush(ino), Done);
    }

    /** `release`: write back, then drop the buffer. */
    method ReleaseFile(ino: nat)
      requires InOrder()
      modifies this, server
      ensures Performed(old(Now()), old(tracked), Release(ino), Done) && ino !in openFiles
      ensures old(Readable()) ==> (Readable() <==> StoresAligned(server.P, old(Now()), ino))
      ensures old(Dirty(View(), ino)) || (ino in tracked && Alone(nodes, ino)) ==> Published(ino)
    {
      hide PacksAll, Orderly, AllReadable, Alone, StoresAligned, FlushStep, Performed, Server.Valid, Abs, FullPath,
        HashBytes;
      ghost var was, tracked0 := Now(), tracked;
      assert tracked0 + {} == tracked0;
      FlushIfDirty(ino);
      if IsFile(View(), ino) { CleanContent(server.P, volume, Now(), tracked, ino); }
      openFiles := openFiles - {ino};
      StepPerformed(was, tracked0, Release(ino), Done);
    }

    /** `create`: a fresh name gets a new inode; an existing one is reopened empty, and then a file's
        node size is stale unless it was zero already, and a directory has a buffer it must not have. */
    method CreateFile(parent: nat, name: string) returns (ino: nat)
      requires InOrder() && parent in nodes && nodes[parent].kind.Dir? && '/' !in name
      modifies this
      ensures (Now(), Created(ino)) == CreateStep(old(Now()), parent, name) && Readable() == old(Readable())
      ensures ino in nodes && nodes[ino].parent == parent && nodes[ino].name == name
      ensures LookupChild(nodes, parent, name) == Some(ino) && ino in openFiles && openFiles[ino] == Staging([], true)
      ensures old(LookupChild(nodes, parent, name)).None? ==>
        && ino == old(next) && next == old(next) + 1 && ino !in old(nodes)
        && nodes[ino].kind.File? && nodes[ino].size == 0
        && parent in nodes && nodes[parent].children == old(nodes[parent].children) + [ino]
      ensures var existing := old(LookupChild(nodes, parent, name));
        && (existing.None? <==> (parent, name) !in old(Abs(View())).names)
        && (existing.None? ==> Performed(old(Now()), old(tracked), Create(parent, name), Created(ino)))
        && (InOrder() <==> (existing.Some? ==> IsFile(old(View()), existing.value)))
        && (existing.Some? && IsFile(old(View()), existing.value) ==>
              && tracked == old(tracked) + {ino} && Abs(View()) == Edit(old(Abs(View())), ino, [])
              && (old(NamesUnique(nodes)) ==> NamesUnique(nodes)) && (old(Base()) ==> Base())
              && (old(SizesOk(View())) ==> (SizesOk(View()) <==> old(nodes)[existing.value].size == 0)))
    {
      hide PacksAll, ServerReady, TreeOk, NamesUnique, SizesOk, HashBytes, FullPath, Linked, CacheOk, Server.Valid,
        DirsOf, NamesOf, CatalogOk, LookupChild, FilesOf, UnsyncedOf, SameFiles, AllReadable, CreateFresh, MountStep,
        PlainStep, CanServe;
      ghost var was, tracked0 := Now(), tracked;
      LookupIsName(nodes, next, parent, name);
      CreatedThere(was.fs, parent, name);
      match LookupChild(nodes, parent, name) {
        case Some(i) =>
          if IsFile(was.fs, i) {
            ReopenEffect(was.server, volume, was.fs, tracked, i);
          } else {
            ReopenDirBreaks(was.server, was.fs, i);
          }
          ino := i;
        case None =>
          CreateReadable(server.P, volume, was, tracked, parent, name);
          ino := next;
          next := next + 1;
          nodes := AddNode(nodes, parent, ino, NewFile(parent, name));
      }
      openFiles := openFiles[ino := Staging([], true)];
      tracked := tracked + {ino};
      if LookupChild(was.fs.nodes, parent, name).None? {
        assert View() == CreateFresh(was.fs, parent, name) by { IsFresh(was.fs, parent, name, View()); }
        FreshLegal(was.fs, parent, name);
        assert (Now(), Created(ino)) == CreateStep(was, parent, name);
        assert MountStep(server.P, volume, was, Create(parent, name)) == CreateStep(was, parent, name) by {
          CreateIsStep(server.P, volume, was, parent, name);
        }
        StepPerformed(was, tracked0, Create(parent, name), Created(ino));
      }
    }

    /** Any one kernel request. */
    method Perform(op: Op) returns (reply: Reply)
      requires InOrder() && Legal(Abs(View()), op)
      modifies this, server
      ensures Performed(old(Now()), old(tracked), op, reply)
    {
      hide PacksAll, Orderly, Server.Valid, Performed, LookupChild, Served, WriteAt, Resize, Slice, Published,
        StoresAligned, AllReadable, Alone, Abs, MountStep;
      LegalParts(View(), op);
      match op {
        case Create(parent, name) =>
          assert (parent, name) !in Abs(View()).names by { FreeName(View(), parent, name); }
          var ino := CreateFile(parent, name);
          reply := Created(ino);
        case Write(ino, offset, data) =>
          var count := WriteFile(ino, offset, data);
          reply := Written(count);
        case SetSize(ino, size) =>
          var attr := SetAttr(ino, Some(size));
          reply := Attr(attr.value);
        case Read(ino, offset, size) =>
          reply := ReadFile(ino, offset, size);
        case Fsync(ino) =>
          Sync(ino);
          reply := Done;
        case Flush(ino) =>
          Sync(ino);
          reply := Done;
        case Release(ino) =>
          ReleaseFile(ino);
          reply := Done;
      }
    }

    /** Every finite run of requests: the mount and its server go through exactly the steps of the model.
        As long as every request finds the content it depends on, the mount answers and ends as the plain
        model does; on a readable mount that is so if every write-back registers aligned terms. */
    method PerformAll(ops: seq<Op>) returns (replies: seq<Reply>)
      requires InOrder() && LegalRun(Abs(View()), ops)
      modifies this, server
      ensures InOrder() && (Now(), replies) == MountRun(server.P, volume, old(Now()), ops) && |replies| == |ops|
      ensures tracked == old(tracked) + RunEdits(old(Abs(View())), ops)
      ensures SameOutline(Abs(View()), PlainRun(old(Abs(View())), ops).0)
      ensures old(NamesUnique(nodes)) ==> NamesUnique(nodes)
      ensures old(Base()) ==>
        forall n :: 0 <= n <= |ops| && AllServed(server.P, volume, old(Now()), ops[..n]) ==>
          replies[..n] == PlainRun(old(Abs(View())), ops[..n]).1
      ensures old(Base()) && AllServed(server.P, volume, old(Now()), ops) ==>
        Base() && Abs(View()) == PlainRun(old(Abs(View())), ops).0 && (old(SizesOk(View())) ==> SizesOk(View()))
      ensures old(Readable()) && AlignedRun(server.P, volume, old(Now()), ops) ==>
        Readable() && AllServed(server.P, volume, old(Now()), ops)
      ensures old(Base()) && old(Readable()) && StorableRun(server.P, old(Abs(View())), ops) ==>
        AlignedRun(server.P, volume, old(Now()), ops)
    {
      hide PacksAll, Orderly, Lawful, ServerOk, LegalRun, Legal, MountStep, PlainStep, AllReadable, Abs, Edits,
        NamesUnique, CacheOk, SizesOk, AllServed, AlignedRun, StorableRun, CanServe, Performed, SameOutline,
        PlainRun, RunEdits, MountRun;
      ghost var was, tracked0 := Now(), tracked;
      replies := RunAll(ops);
      RunMeans(server.P, volume, was, tracked0, ops);
    }

    method RunAll(ops: seq<Op>) returns (replies: seq<Reply>)
      requires InOrder() && LegalRun(Abs(View()), ops)
      modifies this, server
      ensures InOrder() && (Now(), replies) == MountRun(server.P, volume, old(Now()), ops)
      ensures tracked == old(tracked) + RunEdits(old(Abs(View())), ops)
    {
      hide PacksAll, Orderly, Lawful, ServerOk, LegalRun, Legal, MountStep, PlainStep, Abs, Edits, NamesUnique,
        CacheOk, SizesOk, CanServe, SameOutline, SameFiles;
      replies := [];
      ghost var was, tracked0 := Now(), tracked;
      assert ops[..|ops|] == ops;
      assert tracked0 + {} == tracked0;
      for k := 0 to |ops|
        invariant InOrder() && (Now(), replies) == MountRun(server.P, volume, was, ops[..k])
        invariant tracked == tracked0 + RunEdits(Abs(was.fs), ops[..k])
      {
        RunOrderly(server.P, volume, was, tracked0, ops, k);
        AfterStep(server.P, volume, was, ops, k);
        PlainAfterStep(Abs(was.fs), ops, k);
        OutlineLegal(Abs(View()), PlainRun(Abs(was.fs), ops[..k]).0, ops[k]);
        var reply := Perform(ops[k]);
        replies := replies + [reply];
      }
    }

    /** Incremental equals full: after any run of requests and a final `fsync` of a file this or an
        earlier run edited, the catalog entry of its path is the content hash a from-scratch ingest of
        its current bytes would return, unless another file has the same path.  Those are the bytes of
        the plain model if every request found its content. */
    method PerformThenFsync(ops: seq<Op>, ino: nat) returns (replies: seq<Reply>)
      requires InOrder() && LegalRun(Abs(View()), ops)
      modifies this, server
      ensures InOrder() && (Now(), replies + [Done]) == MountRun(server.P, volume, old(Now()), ops + [Fsync(ino)])
      ensures ino in old(tracked) + RunEdits(old(Abs(View())), ops) && Alone(nodes, ino) ==> Published(ino)
      ensures IsFile(View(), ino) && old(NamesUnique(nodes)) ==> Alone(nodes, ino)
      ensures old(Base()) && AllServed(server.P, volume, old(Now()), ops) ==>
        Abs(View()).files == PlainRun(old(Abs(View())), ops).0.files
    {
      hide PacksAll, Server.Valid, LegalRun, MountStep, AllReadable, ServerReady, TreeOk, Linked, CatalogOk,
        NamesUnique, CacheOk, SizesOk, AllServed, AlignedRun, StorableRun, SameOutline, PlainRun, RunEdits, Alone,
        Published, StoresAligned, DirsOf, NamesOf, FilesOf, UnsyncedOf;
      replies := PerformAll(ops);
      assert (ops + [Fsync(ino)])[..|ops|] == ops;
      Sync(ino);
      if IsFile(View(), ino) && NamesUnique(nodes) { UniqueAlone(View(), ino); }
    }
  }

  /** Where a created file is: under its parent and name, which lookup finds, last in the listing if new. */
  lemma CreatedThere(fs: Fs, parent: nat, name: string)
    requires ShapeOk(fs) && parent in fs.nodes && fs.nodes[parent].kind.Dir?
    ensures match LookupChild(fs.nodes, parent, name)
            case Some(i) => i in fs.nodes && fs.nodes[i].parent == parent && fs.nodes[i].name == name
            case None =>
              var nodes' := AddNode(fs.nodes, parent, fs.next, NewFile(parent, name));
              && fs.next !in fs.nodes && fs.next in nodes' && nodes'[fs.next] == NewFile(parent, name)
              && parent in nodes'
              && nodes'[parent].children == fs.nodes[parent].children + [fs.next]
              && LookupChild(nodes', parent, name) == Some(fs.next)
  {
    hide TreeOk, LookupChild, AddNode;
    LookupExact(fs.nodes, fs.next, parent, name);
    AddNodeKeepsTree(fs.nodes, fs.next, parent, NewFile(parent, name));
    if LookupChild(fs.nodes, parent, name).None? { LookupAdded(fs.nodes, fs.next, parent, NewFile(parent, name)); }
  }

  lemma IsFresh(fs: Fs, parent: nat, name: string, fs': Fs)
    requires parent in fs.nodes
    requires fs' == Fs(AddNode(fs.nodes, parent, fs.next, NewFile(parent, name)),
                       fs.open[fs.next := Staging([], true)], fs.cache, fs.next + 1)
    ensures fs' == CreateFresh(fs, parent, name)
  {
  }

  lemma FreshLegal(fs: Fs, parent: nat, name: string)
    requires parent in fs.nodes && fs.nodes[parent].kind.Dir? && (parent, name) !in NamesOf(fs.nodes) && '/' !in name
    ensures Legal(Abs(fs), Create(parent, name)) && Edits(Abs(fs), Create(parent, name)) == {fs.next}
  {
  }

  lemma CreateIsStep(P: Primitives, volume: string, m: Mounted, parent: nat, name: string)
    ensures MountStep(P, volume, m, Create(parent, name)) == CreateStep(m, parent, name)
  {
    hide CreateStep;
  }

  lemma FreeName(fs: Fs, parent: nat, name: string)
    requires (parent, name) !in NamesOf(fs.nodes)
    ensures (parent, name) !in Abs(fs).names
  {
  }

  lemma OverwriteIsWriteAt(b: Bytes, off: nat, data: Bytes)
    ensures var end := off + |data|;
            var grown := if |b| < end then Resize(b, end) else b;
            end <= |grown| && grown[..off] + data + grown[end..] == WriteAt(b, off, data)
  {
  }

  /** Closing a clean file does not change its content. */
  lemma CleanContent(P: Primitives, volume: string, m: Mounted, tracked: set<nat>, ino: nat)
    requires Orderly(P, volume, m, tracked) && IsFile(m.fs, ino) && !Dirty(m.fs, ino)
    ensures Content(Close(m.fs, ino), ino) == Content(m.fs, ino)
  {
    hide ServerReady, TreeOk, CatalogOk, HashBytes;
    assert InodeOk(m.server, m.fs, ino);
  }

  lemma OpenContent(fs: Fs, ino: nat)
    requires ino in fs.open && ino in fs.nodes
    ensures Content(fs, ino) == fs.open[ino].buf
  {
  }

  lemma SameContent(fs: Fs, fs': Fs, ino: nat)
    requires IsFile(fs, ino) && fs'.nodes == fs.nodes && fs'.open == fs.open
    ensures Content(fs', ino) == Content(fs, ino)
  {
  }
}
