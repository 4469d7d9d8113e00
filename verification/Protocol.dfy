/** The server under concurrent clients.  Any number of ingesting agents, foreign uploads and
    collectors take turns; an upload is a blob step and a separate index step, a collection is a
    mark step and then one delete and one evict step per xorb.  The theorems quantify over every
    finite sequence of events; an event that is not enabled changes nothing. */
module Protocol {
  import opened Basics
  import opened XorbFormat
  import opened ServerModel
  import opened Planner
  import opened Reading
  import opened Agent

  /** An upload whose blob it stored and whose index step is still to come. */
  datatype Pending = Pending(hash: XorbHash, info: XorbInfo)

  /** A collection in progress: what it marked and has not evicted yet, and what it has just
      deleted from the blob store. */
  datatype Collector = Collector(todo: set<XorbHash>, deleting: Option<XorbHash>)

  /** The server side, with `order` recording in which order xorbs entered the index. */
  datatype Core = Core(
    server: State, pending: map<nat, Pending>, collectors: map<nat, Collector>, order: seq<XorbHash>)

  datatype Phase = Running | Indexing | Done | Failed

  /** An agent inside `ingest_bytes`: dedup answers so far, position of the walk, terms so far. */
  datatype Client = Client(chunks: seq<Chunk>, key: CatalogKey, locs: Locs, i: nat, terms: seq<Term>, phase: Phase)

  datatype System = System(core: Core, clients: map<nat, Client>)

  datatype Event =
    | Start(c: nat, bytes: Bytes, key: CatalogKey)
    | Query(c: nat)
    | EmitKnown(c: nat)
    | StoreNovel(c: nat)
    | StoreForeign(u: nat, hash: XorbHash, body: Bytes)
    | FinishIndex(u: nat)
    | RegisterFile(c: nat)
    | GcMark(g: nat)
    | GcDelete(g: nat, x: XorbHash)
    | GcEvict(g: nat)
    | GcDone(g: nat)

  const INITIAL := System(Core(EMPTY, map[], map[], []), map[])

  // ---- Server-side steps ----

  /** Blob step of an upload that found its key free. */
  function StoreBlob(k: Core, u: nat, hash: XorbHash, body: Bytes, info: XorbInfo): Core {
    k.(server := PutBlob(k.server, hash, body), pending := k.pending[u := Pending(hash, info)])
  }

  function IndexBlob(k: Core, u: nat): Core
    requires u in k.pending
  {
    var p := k.pending[u];
    if |p.info.chunkHashes| != |p.info.unpackedOffsets| then k.(pending := k.pending - {u})
    else k.(server := IndexXorb(k.server, p.hash, p.info), pending := k.pending - {u},
            order := if p.hash in k.server.xorbs then k.order else k.order + [p.hash])
  }

  ghost function Mark(k: Core, g: nat): Core {
    k.(collectors := k.collectors[g := Collector(Unreferenced(k.server), None)])
  }

  function Delete(k: Core, g: nat, x: XorbHash): Core
    requires g in k.collectors
  {
    k.(server := DeleteBlob(k.server, x), collectors := k.collectors[g := k.collectors[g].(deleting := Some(x))])
  }

  function EvictDeleted(k: Core, g: nat): Core
    requires g in k.collectors && k.collectors[g].deleting.Some?
  {
    var x := k.collectors[g].deleting.value;
    k.(server := Evict(k.server, x), collectors := k.collectors[g := Collector(k.collectors[g].todo - {x}, None)])
  }

  // ---- Client steps ----

  predicate Walking(c: Client) {
    c.phase.Running? && |c.locs| == |c.chunks|
  }

  /** The walk may emit or upload its next group. */
  predicate AtGroup(c: Client) {
    |c.locs| == |c.chunks| && c.i < |c.chunks|
  }

  function NextGroup(c: Client): seq<Chunk>
    requires AtGroup(c)
  {
    c.chunks[c.i..GroupEnd(c.chunks, c.locs, c.i)]
  }

  /** Push the term of the current group and move past it. */
  function Advance(c: Client): Client
    requires AtGroup(c)
  {
    var j := GroupEnd(c.chunks, c.locs, c.i);
    c.(i := j, terms := c.terms + [TermFor(c.chunks, c.locs, c.i, j)], phase := Running)
  }

  function WithClient(s: System, c: nat, client: Client): System {
    s.(clients := s.clients[c := client])
  }

  function StepStoreNovel(P: Primitives, s: System, c: nat): System
    requires c in s.clients && Walking(s.clients[c]) && AtGroup(s.clients[c])
  {
    var client := s.clients[c];
    var group := NextGroup(client);
    var hash := XorbHash(group);
    var body := P.serialize(group);
    if body.None? then WithClient(s, c, client.(phase := Failed)) else
    var info := P.validate(body.value, hash);
    if info.None? then WithClient(s, c, client.(phase := Failed))
    else if hash in s.core.server.blobs
    then System(s.core.(server := PutBlob(s.core.server, hash, body.value)), s.clients[c := Advance(client)])
    else System(StoreBlob(s.core, c, hash, body.value, info.value),
                s.clients[c := client.(phase := Indexing)])
  }

  function StepFinishIndex(s: System, u: nat): System
    requires u in s.core.pending
  {
    System(IndexBlob(s.core, u),
           if u in s.clients && s.clients[u].phase.Indexing? && AtGroup(s.clients[u])
           then s.clients[u := Advance(s.clients[u])] else s.clients)
  }

  function StepRegister(s: System, c: nat): System
    requires c in s.clients
  {
    var client := s.clients[c];
    if CanRegister(s.core.server, client.terms)
    then System(s.core.(server := Register(s.core.server, FileHash(client.chunks),
                                           FileRecord(TotalLen(client.chunks), client.terms), Some(client.key))),
                s.clients[c := client.(phase := Done)])
    else WithClient(s, c, client.(phase := Failed))
  }

  ghost function Step(P: Primitives, s: System, e: Event): System {
    match e
    case Start(c, bytes, key) =>
      if c in s.clients || c in s.core.pending then s
      else WithClient(s, c, Client(P.chunker(bytes), key, [], 0, [], Running))
    case Query(c) =>
      if c !in s.clients || !s.clients[c].phase.Running? || |s.clients[c].locs| >= |s.clients[c].chunks| then s
      else var client := s.clients[c];
           WithClient(s, c, client.(locs := client.locs + [Lookup(s.core.server, client.chunks[|client.locs|])]))
    case EmitKnown(c) =>
      if c !in s.clients || !Walking(s.clients[c]) || !AtGroup(s.clients[c])
         || s.clients[c].locs[s.clients[c].i].None? then s
      else WithClient(s, c, Advance(s.clients[c]))
    case StoreNovel(c) =>
      if c !in s.clients || !Walking(s.clients[c]) || !AtGroup(s.clients[c])
         || s.clients[c].locs[s.clients[c].i].Some? then s
      else StepStoreNovel(P, s, c)
    case StoreForeign(u, hash, body) =>
      if u in s.clients || u in s.core.pending || P.validate(body, hash).None? then s
      else if hash in s.core.server.blobs then s.(core := s.core.(server := PutBlob(s.core.server, hash, body)))
      else s.(core := StoreBlob(s.core, u, hash, body, P.validate(body, hash).value))
    case FinishIndex(u) =>
      if u !in s.core.pending then s else StepFinishIndex(s, u)
    case RegisterFile(c) =>
      if c !in s.clients || !Walking(s.clients[c]) || s.clients[c].i != |s.clients[c].chunks| then s
      else StepRegister(s, c)
    case GcMark(g) =>
      if g in s.core.collectors then s else s.(core := Mark(s.core, g))
    case GcDelete(g, x) =>
      if g !in s.core.collectors || s.core.collectors[g].deleting.Some? || x !in s.core.collectors[g].todo then s
      else s.(core := Delete(s.core, g, x))
    case GcEvict(g) =>
      if g !in s.core.collectors || s.core.collectors[g].deleting.None? then s
      else s.(core := EvictDeleted(s.core, g))
    case GcDone(g) =>
      if g !in s.core.collectors || s.core.collectors[g].todo != {} then s
      else s.(core := s.core.(collectors := s.core.collectors - {g}))
  }

  /** The state after a run of events from `s`. */
  ghost function RunFrom(P: Primitives, s: System, es: seq<Event>): System {
    if |es| == 0 then s else Step(P, RunFrom(P, s, es[..|es| - 1]), es[|es| - 1])
  }

  /** The state after a whole run: the index is in memory, so everything starts empty. */
  ghost function Run(P: Primitives, es: seq<Event>): System {
    RunFrom(P, INITIAL, es)
  }

  // ---- The guard the code leaves to its operator ----

  /** Marked by some collection and not evicted by it yet. */
  ghost predicate Doomed(k: Core, x: XorbHash) {
    exists g :: g in k.collectors && x in k.collectors[g].todo
  }

  ghost predicate FreeToStore(k: Core, x: XorbHash) {
    x in k.server.blobs || !Doomed(k, x)
  }

  ghost predicate FreeToRegister(k: Core, terms: seq<Term>) {
    forall i :: 0 <= i < |terms| ==> !Doomed(k, terms[i].xorb)
  }

  /** No new blob for a doomed key, and no registration of a doomed xorb.  "Do nothing while a
      collection runs" implies it. */
  ghost predicate Guard(s: System, e: Event) {
    match e
    case StoreNovel(c) => c in s.clients && AtGroup(s.clients[c]) ==>
      FreeToStore(s.core, XorbHash(NextGroup(s.clients[c])))
    case StoreForeign(u, hash, body) => FreeToStore(s.core, hash)
    case RegisterFile(c) => c in s.clients ==> FreeToRegister(s.core, s.clients[c].terms)
    case _ => true
  }

  /** Every event of the run from `s` respects the guard at its own time. */
  ghost predicate GuardedFrom(P: Primitives, s: System, es: seq<Event>) {
    |es| == 0 || (GuardedFrom(P, s, es[..|es| - 1]) && Guard(RunFrom(P, s, es[..|es| - 1]), es[|es| - 1]))
  }

  ghost predicate Guarded(P: Primitives, es: seq<Event>) {
    GuardedFrom(P, INITIAL, es)
  }

  // ---- Invariants ----

  ghost predicate IndexedStored(k: Core) {
    forall x :: x in k.server.xorbs ==> x in k.server.blobs || Doomed(k, x)
  }

  ghost predicate BlobsOwned(k: Core) {
    forall x :: x in k.server.blobs ==> x in k.server.xorbs || exists u :: u in k.pending && k.pending[u].hash == x
  }

  ghost predicate PendingOk(P: Primitives, k: Core, p: Pending) {
    && p.hash in k.server.blobs && p.hash !in k.server.xorbs && !Doomed(k, p.hash)
    && Describes(P, k.server.blobs[p.hash], p.hash, p.info)
  }

  ghost predicate AllPendingOk(P: Primitives, k: Core) {
    forall u :: u in k.pending ==> PendingOk(P, k, k.pending[u])
  }

  /** A blob that is not indexed has exactly one inserter on its way. */
  ghost predicate OneInserter(k: Core) {
    forall u, v :: u in k.pending && v in k.pending && k.pending[u].hash == k.pending[v].hash ==> u == v
  }

  ghost predicate FileOk(P: Primitives, k: Core, fh: FileHash, record: FileRecord) {
    && RecordOk(P, fh, record)
    && CanRegister(k.server, record.terms)
    && FreeToRegister(k, record.terms)
  }

  ghost predicate FilesOk(P: Primitives, k: Core) {
    forall fh :: fh in k.server.files ==> FileOk(P, k, fh, k.server.files[fh])
  }

  ghost predicate CollectorsOk(k: Core) {
    forall g :: g in k.collectors && k.collectors[g].deleting.Some? ==>
      k.collectors[g].deleting.value in k.collectors[g].todo && k.collectors[g].deleting.value !in k.server.blobs
  }

  ghost predicate CoreInv(P: Primitives, k: Core) {
    && OffsetsMatchBlobs(P, k.server) && DedupSound(k.server)
    && IndexedStored(k) && BlobsOwned(k) && AllPendingOk(P, k) && OneInserter(k)
    && FilesOk(P, k) && CollectorsOk(k)
  }

  /** The agent's own state is right whatever the server did since: its answers name positions that
      hold the chunks, and its terms spell out the chunks walked so far. */
  ghost predicate ClientOk(P: Primitives, c: Client) {
    && P.chunker(Flatten(c.chunks)) == c.chunks
    && LocsSound(c.chunks, c.locs)
    && c.i <= |c.chunks|
    && TermsOk(c.terms) && Covered(c.terms) == c.chunks[..c.i]
  }

  ghost predicate ClientsOk(P: Primitives, clients: map<nat, Client>) {
    forall c :: c in clients ==> ClientOk(P, clients[c])
  }

  ghost predicate Inv(P: Primitives, s: System) {
    CoreInv(P, s.core) && ClientsOk(P, s.clients)
  }

  // ---- Each server-side step keeps the invariant ----

  lemma UnindexedWhenFree(k: Core, x: XorbHash)
    requires IndexedStored(k) && x !in k.server.blobs && !Doomed(k, x)
    ensures x !in k.server.xorbs
  {
  }

  lemma NoInserterWithoutBlob(P: Primitives, k: Core, u: nat)
    requires AllPendingOk(P, k) && u in k.pending
    ensures k.pending[u].hash in k.server.blobs
  {
    assert PendingOk(P, k, k.pending[u]);
  }

  lemma SameCollectorsSameDoom(k: Core, k': Core)
    requires k'.collectors == k.collectors
    ensures forall x :: Doomed(k', x) <==> Doomed(k, x)
  {
  }

  lemma StoreOwns(k: Core, u: nat, hash: XorbHash, body: Bytes, info: XorbInfo)
    requires BlobsOwned(k) && u !in k.pending && hash !in k.server.blobs
    ensures BlobsOwned(StoreBlob(k, u, hash, body, info))
  {
    var k' := StoreBlob(k, u, hash, body, info);
    forall x | x in k'.server.blobs && x !in k'.server.xorbs
      ensures exists v :: v in k'.pending && k'.pending[v].hash == x
    {
      if x == hash {
        assert k'.pending[u].hash == x;
      } else {
        var v :| v in k.pending && k.pending[v].hash == x;
        assert k'.pending[v].hash == x;
      }
    }
  }

  lemma StoreKeepsPending(P: Primitives, k: Core, u: nat, hash: XorbHash, body: Bytes, info: XorbInfo)
    requires AllPendingOk(P, k) && OneInserter(k) && IndexedStored(k)
    requires u !in k.pending && hash !in k.server.blobs && !Doomed(k, hash) && Describes(P, body, hash, info)
    ensures var k' := StoreBlob(k, u, hash, body, info); AllPendingOk(P, k') && OneInserter(k')
  {
    var k' := StoreBlob(k, u, hash, body, info);
    UnindexedWhenFree(k, hash);
    SameCollectorsSameDoom(k, k');
    hide Describes, Doomed;
    forall v | v in k'.pending
      ensures PendingOk(P, k', k'.pending[v])
    {
      if v != u { assert PendingOk(P, k, k.pending[v]); }
    }
    forall v | v in k.pending
      ensures k.pending[v].hash != hash
    {
      NoInserterWithoutBlob(P, k, v);
    }
  }

  lemma StoreKeeps(P: Primitives, k: Core, u: nat, hash: XorbHash, body: Bytes, info: XorbInfo)
    requires CoreInv(P, k) && u !in k.pending && hash !in k.server.blobs && !Doomed(k, hash)
    requires Describes(P, body, hash, info)
    ensures CoreInv(P, StoreBlob(k, u, hash, body, info))
  {
    var k' := StoreBlob(k, u, hash, body, info);
    UnindexedWhenFree(k, hash);
    SameCollectorsSameDoom(k, k');
    StoreOwns(k, u, hash, body, info);
    StoreKeepsPending(P, k, u, hash, body, info);
    hide Describes, MetaMatches, LocSound, RecordOk, Doomed, BlobsOwned, AllPendingOk, OneInserter;
    forall fh | fh in k'.server.files
      ensures FileOk(P, k', fh, k'.server.files[fh])
    {
      assert FileOk(P, k, fh, k.server.files[fh]);
    }
  }

  lemma IndexKeepsOwners(P: Primitives, k: Core, u: nat)
    requires BlobsOwned(k) && AllPendingOk(P, k) && OneInserter(k) && u in k.pending
    ensures var k' := IndexBlob(k, u); BlobsOwned(k') && AllPendingOk(P, k') && OneInserter(k')
  {
    var k' := IndexBlob(k, u);
    SameCollectorsSameDoom(k, k');
    hide Describes, Doomed, ServerModel.IndexChunks;
    assert PendingOk(P, k, k.pending[u]);
    forall x | x in k'.server.blobs && x !in k'.server.xorbs
      ensures exists v :: v in k'.pending && k'.pending[v].hash == x
    {
      var v :| v in k.pending && k.pending[v].hash == x;
      assert k'.pending[v].hash == x;
    }
    forall v | v in k'.pending
      ensures PendingOk(P, k', k'.pending[v])
    {
      assert PendingOk(P, k, k.pending[v]);
    }
  }

  /** The entry made by the index step describes the very blob its own blob step stored. */
  lemma IndexKeepsOffsets(P: Primitives, k: Core, u: nat)
    requires OffsetsMatchBlobs(P, k.server) && u in k.pending && PendingOk(P, k, k.pending[u])
    ensures OffsetsMatchBlobs(P, IndexBlob(k, u).server)
  {
    hide Encodes, Doomed, ServerModel.IndexChunks;
    var k' := IndexBlob(k, u);
    forall x | x in k'.server.xorbs && x in k'.server.blobs
      ensures MetaMatches(P, k'.server.blobs[x], x, k'.server.xorbs[x])
    {
      assert x in k.server.xorbs ==> MetaMatches(P, k.server.blobs[x], x, k.server.xorbs[x]);
    }
  }

  lemma IndexKeeps(P: Primitives, k: Core, u: nat)
    requires CoreInv(P, k) && u in k.pending
    ensures CoreInv(P, IndexBlob(k, u))
  {
    var p, k' := k.pending[u], IndexBlob(k, u);
    assert PendingOk(P, k, p);
    IndexXorbSound(k.server, p.hash, p.info);
    IndexKeepsOwners(P, k, u);
    IndexKeepsOffsets(P, k, u);
    SameCollectorsSameDoom(k, k');
    hide Describes, LocSound, RecordOk, Doomed, OffsetsMatchBlobs, DedupSound, BlobsOwned, AllPendingOk, OneInserter,
      ServerModel.IndexChunks;
    forall fh | fh in k'.server.files
      ensures FileOk(P, k', fh, k'.server.files[fh])
    {
      assert FileOk(P, k, fh, k.server.files[fh]);
    }
  }

  lemma RegisterKeeps(P: Primitives, k: Core, fh: FileHash, record: FileRecord, key: CatalogKey)
    requires CoreInv(P, k) && FileOk(P, k, fh, record)
    ensures CoreInv(P, k.(server := Register(k.server, fh, record, Some(key))))
  {
    hide Describes, MetaMatches, LocSound, RecordOk;
    var k' := k.(server := Register(k.server, fh, record, Some(key)));
    assert forall x :: Doomed(k', x) <==> Doomed(k, x);
    forall v | v in k'.pending
      ensures PendingOk(P, k', k'.pending[v])
    {
      assert PendingOk(P, k, k.pending[v]);
    }
    forall g | g in k'.server.files
      ensures FileOk(P, k', g, k'.server.files[g])
    {
      if g != fh { assert FileOk(P, k, g, k.server.files[g]); }
    }
  }

  lemma MarkDooms(k: Core, g: nat, x: XorbHash)
    requires g !in k.collectors
    ensures Doomed(Mark(k, g), x) <==> Doomed(k, x) || x in Unreferenced(k.server)
  {
    hide Unreferenced;
    var k' := Mark(k, g);
    if Doomed(k, x) {
      var h :| h in k.collectors && x in k.collectors[h].todo;
      assert x in k'.collectors[h].todo;
    }
    if x in Unreferenced(k.server) {
      assert x in k'.collectors[g].todo;
    }
  }

  lemma MarkKeeps(P: Primitives, k: Core, g: nat)
    requires CoreInv(P, k) && g !in k.collectors
    ensures CoreInv(P, Mark(k, g))
  {
    hide Describes, MetaMatches, LocSound, RecordOk, Doomed;
    var k' := Mark(k, g);
    forall x
      ensures Doomed(k', x) <==> Doomed(k, x) || x in Unreferenced(k.server)
    {
      MarkDooms(k, g, x);
    }
    forall v | v in k'.pending
      ensures PendingOk(P, k', k'.pending[v])
    {
      assert PendingOk(P, k, k.pending[v]);
    }
    forall fh | fh in k'.server.files
      ensures FileOk(P, k', fh, k'.server.files[fh])
    {
      assert FileOk(P, k, fh, k.server.files[fh]);
      var terms := k.server.files[fh].terms;
      forall i | 0 <= i < |terms|
        ensures !Doomed(k', terms[i].xorb)
      {
        assert terms[i] in terms && terms[i].xorb in Referenced(k.server.files);
      }
    }
  }

  lemma DeleteDooms(k: Core, g: nat, x: XorbHash, y: XorbHash)
    requires g in k.collectors
    ensures Doomed(Delete(k, g, x), y) <==> Doomed(k, y)
  {
    var k' := Delete(k, g, x);
    if Doomed(k, y) {
      var h :| h in k.collectors && y in k.collectors[h].todo;
      assert y in k'.collectors[h].todo;
    }
    if Doomed(k', y) {
      var h :| h in k'.collectors && y in k'.collectors[h].todo;
      assert y in k.collectors[h].todo;
    }
  }

  lemma DeleteKeeps(P: Primitives, k: Core, g: nat, x: XorbHash)
    requires CoreInv(P, k) && g in k.collectors && k.collectors[g].deleting.None? && x in k.collectors[g].todo
    ensures CoreInv(P, Delete(k, g, x))
  {
    assert Doomed(k, x);
    hide Describes, MetaMatches, LocSound, RecordOk, Doomed;
    var k' := Delete(k, g, x);
    forall y
      ensures Doomed(k', y) <==> Doomed(k, y)
    {
      DeleteDooms(k, g, x, y);
    }
    forall y | y in k'.server.xorbs && y in k'.server.blobs
      ensures MetaMatches(P, k'.server.blobs[y], y, k'.server.xorbs[y])
    {
      assert MetaMatches(P, k.server.blobs[y], y, k.server.xorbs[y]);
    }
    forall v | v in k'.pending
      ensures PendingOk(P, k', k'.pending[v])
    {
      assert PendingOk(P, k, k.pending[v]);
    }
    forall fh | fh in k'.server.files
      ensures FileOk(P, k', fh, k'.server.files[fh])
    {
      assert FileOk(P, k, fh, k.server.files[fh]);
    }
  }

  lemma EvictDooms(k: Core, g: nat, y: XorbHash)
    requires g in k.collectors && k.collectors[g].deleting.Some?
    ensures Doomed(EvictDeleted(k, g), y) ==> Doomed(k, y)
    ensures Doomed(k, y) && y != k.collectors[g].deleting.value ==> Doomed(EvictDeleted(k, g), y)
  {
    var k' := EvictDeleted(k, g);
    if Doomed(k', y) {
      var h :| h in k'.collectors && y in k'.collectors[h].todo;
      assert y in k.collectors[h].todo;
    }
    if Doomed(k, y) && y != k.collectors[g].deleting.value {
      var h :| h in k.collectors && y in k.collectors[h].todo;
      assert y in k'.collectors[h].todo;
    }
  }

  ghost predicate DoomAfterEvict(k: Core, k': Core, x: XorbHash) {
    forall y :: (Doomed(k', y) ==> Doomed(k, y)) && (Doomed(k, y) && y != x ==> Doomed(k', y))
  }

  lemma EvictKeepsFiles(P: Primitives, k: Core, g: nat)
    requires FilesOk(P, k) && g in k.collectors && k.collectors[g].deleting.Some?
    requires Doomed(k, k.collectors[g].deleting.value)
    requires DoomAfterEvict(k, EvictDeleted(k, g), k.collectors[g].deleting.value)
    ensures FilesOk(P, EvictDeleted(k, g))
  {
    hide RecordOk, Doomed;
    var k' := EvictDeleted(k, g);
    forall fh | fh in k'.server.files
      ensures FileOk(P, k', fh, k'.server.files[fh])
    {
      assert FileOk(P, k, fh, k.server.files[fh]);
      var terms := k.server.files[fh].terms;
      forall t | t in terms
        ensures t.xorb in k'.server.xorbs
      {
        var i :| 0 <= i < |terms| && terms[i] == t;
        assert !Doomed(k, terms[i].xorb);
      }
    }
  }

  lemma EvictKeepsPending(P: Primitives, k: Core, g: nat)
    requires AllPendingOk(P, k) && g in k.collectors && k.collectors[g].deleting.Some?
    requires DoomAfterEvict(k, EvictDeleted(k, g), k.collectors[g].deleting.value)
    ensures AllPendingOk(P, EvictDeleted(k, g))
  {
    hide Describes, Doomed;
    var k' := EvictDeleted(k, g);
    forall v | v in k'.pending
      ensures PendingOk(P, k', k'.pending[v])
    {
      assert PendingOk(P, k, k.pending[v]);
    }
  }

  lemma EvictKeeps(P: Primitives, k: Core, g: nat)
    requires CoreInv(P, k) && g in k.collectors && k.collectors[g].deleting.Some?
    ensures CoreInv(P, EvictDeleted(k, g))
  {
    var k' := EvictDeleted(k, g);
    var x := k.collectors[g].deleting.value;
    EvictSound(k.server, x);
    assert Doomed(k, x);
    hide MetaMatches, DedupSound, FilesOk, AllPendingOk, Doomed;
    forall y
      ensures (Doomed(k', y) ==> Doomed(k, y)) && (Doomed(k, y) && y != x ==> Doomed(k', y))
    {
      EvictDooms(k, g, y);
    }
    EvictKeepsPending(P, k, g);
    EvictKeepsFiles(P, k, g);
  }

  lemma DoneKeeps(P: Primitives, k: Core, g: nat)
    requires CoreInv(P, k) && g in k.collectors && k.collectors[g].todo == {}
    ensures CoreInv(P, k.(collectors := k.collectors - {g}))
  {
    var k' := k.(collectors := k.collectors - {g});
    forall y
      ensures Doomed(k', y) <==> Doomed(k, y)
    {
      if Doomed(k, y) {
        var h :| h in k.collectors && y in k.collectors[h].todo;
        assert y in k'.collectors[h].todo;
      }
    }
    hide Describes, MetaMatches, LocSound, RecordOk, Doomed;
    forall v | v in k'.pending
      ensures PendingOk(P, k', k'.pending[v])
    {
      assert PendingOk(P, k, k.pending[v]);
    }
    forall fh | fh in k'.server.files
      ensures FileOk(P, k', fh, k'.server.files[fh])
    {
      assert FileOk(P, k, fh, k.server.files[fh]);
    }
  }

  // ---- Client steps ----

  lemma AdvanceKeeps(P: Primitives, c: Client)
    requires ClientOk(P, c) && AtGroup(c)
    ensures ClientOk(P, Advance(c))
  {
    hide GroupEnd, TermFor, TermChunks, TermOk, Covered, Flatten, LocsSound;
    TermForCovers(c.chunks, c.locs, c.i);
    var j := GroupEnd(c.chunks, c.locs, c.i);
    CoveredSnoc(c.terms, TermFor(c.chunks, c.locs, c.i, j));
    PrefixGrows(c.chunks, c.i, j);
  }

  lemma PrefixGrows<T>(s: seq<T>, i: nat, j: nat)
    requires i <= j <= |s|
    ensures s[..j] == s[..i] + s[i..j]
  {
  }

  /** An answer given by a sound index stays right for ever: it is a fact about hashes. */
  lemma QueryKeeps(P: Primitives, server: State, c: Client)
    requires ClientOk(P, c) && |c.locs| < |c.chunks| && DedupSound(server)
    ensures ClientOk(P, c.(locs := c.locs + [Lookup(server, c.chunks[|c.locs|])]))
  {
    hide Flatten, Covered, TermsOk;
    var h := ChunkHash(c.chunks[|c.locs|]);
    assert h in server.chunkIndex ==> LocSound(server.xorbs, h, server.chunkIndex[h]);
  }

  lemma FinishedRecordOk(P: Primitives, c: Client)
    requires ClientOk(P, c) && c.i == |c.chunks|
    ensures RecordOk(P, FileHash(c.chunks), FileRecord(TotalLen(c.chunks), c.terms))
  {
    hide Flatten, Covered, TermsOk, TotalLen;
    assert c.chunks[..c.i] == c.chunks;
  }

  lemma StartOk(P: Primitives, bytes: Bytes, key: CatalogKey)
    requires LawfulChunker(P)
    ensures ClientOk(P, Client(P.chunker(bytes), key, [], 0, [], Running))
  {
  }

  lemma ValidatedDescribes(P: Primitives, body: Bytes, hash: XorbHash)
    requires Lawful(P) && P.validate(body, hash).Some?
    ensures Describes(P, body, hash, P.validate(body, hash).value)
  {
  }

  // ---- Every step of the system ----

  lemma StoreNovelKeeps(P: Primitives, s: System, c: nat)
    requires Lawful(P) && Inv(P, s) && Guard(s, StoreNovel(c)) && c !in s.core.pending
    requires c in s.clients && Walking(s.clients[c]) && AtGroup(s.clients[c])
    ensures Inv(P, StepStoreNovel(P, s, c))
  {
    hide Lawful, CoreInv, StoreBlob, Doomed, GroupEnd, Advance, LocsSound, TermsOk, Covered, Flatten, Describes;
    var client := s.clients[c];
    assert ClientOk(P, client);
    AdvanceKeeps(P, client);
    var group := NextGroup(client);
    var hash, body := XorbHash(group), P.serialize(group);
    if body.Some? && P.validate(body.value, hash).Some? && hash !in s.core.server.blobs {
      ValidatedDescribes(P, body.value, hash);
      StoreKeeps(P, s.core, c, hash, body.value, P.validate(body.value, hash).value);
    }
  }

  lemma FinishIndexKeeps(P: Primitives, s: System, u: nat)
    requires Inv(P, s) && u in s.core.pending
    ensures Inv(P, StepFinishIndex(s, u))
  {
    hide CoreInv, IndexBlob, Advance, ClientOk;
    IndexKeeps(P, s.core, u);
    if u in s.clients && s.clients[u].phase.Indexing? && AtGroup(s.clients[u]) {
      AdvanceKeeps(P, s.clients[u]);
    }
  }

  lemma RegisterFileKeeps(P: Primitives, s: System, c: nat)
    requires Inv(P, s) && Guard(s, RegisterFile(c))
    requires c in s.clients && s.clients[c].i == |s.clients[c].chunks|
    ensures Inv(P, StepRegister(s, c))
  {
    hide CoreInv, LocsSound, TermsOk, Covered, Flatten, CanRegister, FreeToRegister, Register, TotalLen;
    var client := s.clients[c];
    assert ClientOk(P, client);
    if CanRegister(s.core.server, client.terms) {
      FinishedRecordOk(P, client);
      RegisterKeeps(P, s.core, FileHash(client.chunks), FileRecord(TotalLen(client.chunks), client.terms), client.key);
    }
  }

  /** A client that is running has no upload pending under its name. */
  ghost predicate NamesOk(s: System) {
    forall c :: c in s.clients && c in s.core.pending ==> s.clients[c].phase.Indexing?
  }

  lemma NamesKept(P: Primitives, s: System, e: Event)
    requires NamesOk(s)
    ensures NamesOk(Step(P, s, e))
  {
    hide GroupEnd, Unreferenced, Evict, Register, IndexXorb, CanRegister, TermFor;
  }

  lemma StepKeeps(P: Primitives, s: System, e: Event)
    requires Lawful(P) && Inv(P, s) && NamesOk(s) && Guard(s, e)
    ensures Inv(P, Step(P, s, e))
  {
    hide Lawful, CoreInv, ClientOk, StoreBlob, IndexBlob, Mark, Delete, EvictDeleted, Advance, Doomed,
      StepStoreNovel, StepFinishIndex, StepRegister, Describes, Lookup, FreeToRegister, GroupEnd;
    match e {
      case Start(c, bytes, key) =>
        assert LawfulChunker(P) by { LawfulParts(P); }
        StartOk(P, bytes, key);
      case Query(c) =>
        if c in s.clients && |s.clients[c].locs| < |s.clients[c].chunks| {
          CoreInvParts(P, s.core);
          QueryKeeps(P, s.core.server, s.clients[c]);
        }
      case EmitKnown(c) =>
        if c in s.clients && AtGroup(s.clients[c]) { AdvanceKeeps(P, s.clients[c]); }
      case StoreNovel(c) =>
        if c in s.clients && Walking(s.clients[c]) && AtGroup(s.clients[c]) { StoreNovelKeeps(P, s, c); }
      case StoreForeign(u, hash, body) =>
        if u !in s.core.pending && P.validate(body, hash).Some? && hash !in s.core.server.blobs {
          ValidatedDescribes(P, body, hash);
          StoreKeeps(P, s.core, u, hash, body, P.validate(body, hash).value);
        }
      case FinishIndex(u) =>
        if u in s.core.pending { FinishIndexKeeps(P, s, u); }
      case RegisterFile(c) =>
        if c in s.clients && s.clients[c].i == |s.clients[c].chunks| { RegisterFileKeeps(P, s, c); }
      case GcMark(g) =>
        if g !in s.core.collectors { MarkKeeps(P, s.core, g); }
      case GcDelete(g, x) =>
        if g in s.core.collectors && s.core.collectors[g].deleting.None? && x in s.core.collectors[g].todo {
          DeleteKeeps(P, s.core, g, x);
        }
      case GcEvict(g) =>
        if g in s.core.collectors && s.core.collectors[g].deleting.Some? { EvictKeeps(P, s.core, g); }
      case GcDone(g) =>
        if g in s.core.collectors && s.core.collectors[g].todo == {} { DoneKeeps(P, s.core, g); }
    }
  }

  lemma LawfulParts(P: Primitives)
    requires Lawful(P)
    ensures LawfulChunker(P) && LawfulValidate(P) && LawfulSerialize(P)
  {
  }

  lemma CoreInvParts(P: Primitives, k: Core)
    requires CoreInv(P, k)
    ensures DedupSound(k.server) && IndexedStored(k) && BlobsOwned(k) && AllPendingOk(P, k) && OneInserter(k)
  {
  }

  lemma InitialInv(P: Primitives)
    ensures Inv(P, INITIAL) && NamesOk(INITIAL)
  {
  }

  lemma {:induction false} GuardedRunsKeepInv(P: Primitives, s: System, es: seq<Event>)
    requires Lawful(P) && Inv(P, s) && NamesOk(s) && GuardedFrom(P, s, es)
    ensures Inv(P, RunFrom(P, s, es)) && NamesOk(RunFrom(P, s, es))
  {
    hide Lawful, Inv, NamesOk, Step, Guard;
    if |es| > 0 {
      var t, e := RunFrom(P, s, es[..|es| - 1]), es[|es| - 1];
      GuardedRunsKeepInv(P, s, es[..|es| - 1]);
      StepKeeps(P, t, e);
      NamesKept(P, t, e);
    }
  }

  lemma InvServerOk(P: Primitives, s: System)
    requires Inv(P, s)
    ensures ServerOk(P, s.core.server)
    ensures s.core.collectors == map[] ==> Healthy(P, s.core.server)
  {
    hide MetaMatches, LocSound, RecordOk;
    var k := s.core;
    forall fh | fh in k.server.files
      ensures FileStored(P, k.server, fh)
    {
      assert FileOk(P, k, fh, k.server.files[fh]);
    }
  }

  /** Safety of every guarded run, at every moment, also between the delete and the evict of a
      collection: offsets describe the stored bytes, every registered file can be served in full,
      and the dedup index is sound.  With no collection running the server is ready for ingests. */
  lemma GuardedRunsAreSafe(P: Primitives, es: seq<Event>)
    requires Lawful(P) && Guarded(P, es)
    ensures var s := Run(P, es);
            && ServerOk(P, s.core.server)
            && (s.core.collectors == map[] ==> Healthy(P, s.core.server))
  {
    hide Lawful, ServerOk, Healthy, Inv, GuardedFrom, RunFrom;
    InitialInv(P);
    GuardedRunsKeepInv(P, INITIAL, es);
    InvServerOk(P, Run(P, es));
  }

  /** Every blob is indexed or has exactly one pending inserter, and every pending inserter still
      has its blob, described by the footer it carries. */
  lemma GuardedRunsOwnBlobs(P: Primitives, es: seq<Event>)
    requires Lawful(P) && Guarded(P, es)
    ensures var k := Run(P, es).core;
            && (forall x :: x in k.server.blobs && x !in k.server.xorbs ==>
                  exists u :: u in k.pending && k.pending[u].hash == x
                              && forall v :: v in k.pending && k.pending[v].hash == x ==> v == u)
            && (forall u :: u in k.pending ==>
                  k.pending[u].hash in k.server.blobs && k.pending[u].hash !in k.server.xorbs
                  && Describes(P, k.server.blobs[k.pending[u].hash], k.pending[u].hash, k.pending[u].info))
  {
    hide Lawful, GuardedFrom, RunFrom, Describes, Doomed, OffsetsMatchBlobs, DedupSound, FilesOk;
    InitialInv(P);
    GuardedRunsKeepInv(P, INITIAL, es);
    var k := Run(P, es).core;
    CoreInvParts(P, k);
    forall x | x in k.server.blobs && x !in k.server.xorbs
      ensures exists u :: u in k.pending && k.pending[u].hash == x
                          && forall v :: v in k.pending && k.pending[v].hash == x ==> v == u
    {
      var u :| u in k.pending && k.pending[u].hash == x;
    }
    forall u | u in k.pending
      ensures k.pending[u].hash in k.server.blobs && k.pending[u].hash !in k.server.xorbs
      ensures Describes(P, k.server.blobs[k.pending[u].hash], k.pending[u].hash, k.pending[u].info)
    {
      assert PendingOk(P, k, k.pending[u]);
    }
  }

  /** Round trip in every interleaving.  At every moment of every guarded run, a read of any registered
      file goes through the index and the stored blobs to the runs its entries name; it decodes the
      file's own chunks if and only if the record is aligned, and then gives the file's bytes, as it
      always does for files without a repeated chunk. */
  lemma GuardedRunsRoundTrip(P: Primitives, es: seq<Event>, fh: FileHash)
    requires Lawful(P) && Guarded(P, es) && fh in Run(P, es).core.server.files
    ensures var server := Run(P, es).core.server;
            var terms, back := server.files[fh].terms, ReadBack(P, server, fh);
            && back == Ok(Reassembled(terms))
            && (Covered(ShiftedAll(terms)) == fh.chunks <==> Aligned(terms))
            && (Aligned(terms) ==> back == Ok(Flatten(fh.chunks)))
            && (SameLengths(Covered(ShiftedAll(terms)), fh.chunks) ==>
               (back == Ok(Flatten(fh.chunks)) <==> Aligned(terms)))
            && (Distinct(fh.chunks) ==> back == Ok(Flatten(fh.chunks)))
  {
    hide Lawful, ServerOk, GuardedFrom, RunFrom, Aligned, Distinct, Reassembled, Flatten, Covered, ShiftedAll,
      SameLengths, ReadBack;
    GuardedRunsAreSafe(P, es);
    StoredFileReassembles(P, Run(P, es).core.server, fh);
    ReadBackIsReassembled(P, Run(P, es).core.server, fh);
  }

  // ---- A finished client's file is registered ----

  /** Finished clients' files are registered, and the catalog names only registered files. */
  ghost predicate RegistryOk(s: System) {
    && (forall c :: c in s.clients && s.clients[c].phase.Done? ==> FileHash(s.clients[c].chunks) in s.core.server.files)
    && (forall key :: key in s.core.server.catalog ==> s.core.server.catalog[key] in s.core.server.files)
  }

  lemma RegistryKept(P: Primitives, s: System, e: Event)
    requires RegistryOk(s)
    ensures RegistryOk(Step(P, s, e))
  {
    hide GroupEnd, Unreferenced, TermFor, CanRegister, ServerModel.IndexChunks;
  }

  /** Once its ingest reports success, a client's file stays registered, guard or no guard, and every
      catalog entry can be looked up. */
  lemma {:induction false} FinishedClientsAreRegistered(P: Primitives, es: seq<Event>)
    ensures RegistryOk(Run(P, es))
  {
    hide Step;
    if |es| > 0 {
      FinishedClientsAreRegistered(P, es[..|es| - 1]);
      RegistryKept(P, Run(P, es[..|es| - 1]), es[|es| - 1]);
    }
  }

  // ---- Dedup soundness needs no guard ----

  ghost predicate PendingListed(k: Core) {
    forall u :: u in k.pending ==> Lists(k.pending[u].hash, k.pending[u].info)
  }

  lemma DedupKept(P: Primitives, s: System, e: Event)
    requires Lawful(P) && DedupSound(s.core.server) && PendingListed(s.core)
    ensures var t := Step(P, s, e); DedupSound(t.core.server) && PendingListed(t.core)
  {
    hide Lawful, DedupSound, Lists, Encodes, GroupEnd, Advance, Unreferenced, CanRegister, IndexXorb, Evict, Lookup,
      AtGroup, NextGroup;
    match e {
      case StoreNovel(c) =>
        if c in s.clients && AtGroup(s.clients[c]) {
          var group := NextGroup(s.clients[c]);
          var body := P.serialize(group);
          if body.Some? && P.validate(body.value, XorbHash(group)).Some? {
            ValidatedDescribes(P, body.value, XorbHash(group));
          }
        }
        assert SameDedup(s.core.server, Step(P, s, e).core.server);
        SameDedupSound(s.core.server, Step(P, s, e).core.server);
      case StoreForeign(u, hash, body) =>
        if P.validate(body, hash).Some? { ValidatedDescribes(P, body, hash); }
        SameDedupSound(s.core.server, Step(P, s, e).core.server);
      case FinishIndex(u) =>
        if u in s.core.pending {
          var p := s.core.pending[u];
          ListsLengths(p.hash, p.info);
          IndexXorbSound(s.core.server, p.hash, p.info);
        }
      case GcEvict(g) =>
        if g in s.core.collectors && s.core.collectors[g].deleting.Some? {
          EvictSound(s.core.server, s.core.collectors[g].deleting.value);
        }
      case _ =>
        SameDedupSound(s.core.server, Step(P, s, e).core.server);
    }
  }

  ghost predicate SameDedup(s: State, t: State) {
    t.xorbs == s.xorbs && t.chunkIndex == s.chunkIndex
  }

  lemma SameDedupSound(s: State, t: State)
    requires DedupSound(s) && SameDedup(s, t)
    ensures DedupSound(t)
  {
  }

  lemma ListsLengths(h: XorbHash, info: XorbInfo)
    requires Lists(h, info)
    ensures |info.chunkHashes| == |info.unpackedOffsets|
  {
  }

  /** In every run whatsoever, even with collections racing uploads and registrations, each dedup
      entry points at an indexed xorb whose chunk there has that hash and that length. */
  lemma {:induction false} EveryRunKeepsDedupSound(P: Primitives, es: seq<Event>)
    requires Lawful(P)
    ensures DedupSound(Run(P, es).core.server) && PendingListed(Run(P, es).core)
  {
    hide Step, Lawful, DedupSound, PendingListed;
    if |es| > 0 {
      EveryRunKeepsDedupSound(P, es[..|es| - 1]);
      DedupKept(P, Run(P, es[..|es| - 1]), es[|es| - 1]);
    } else {
      InitialDedup();
    }
  }

  lemma InitialDedup()
    ensures DedupSound(INITIAL.core.server) && PendingListed(INITIAL.core)
  {
  }

  // ---- Runs put together ----

  lemma RunOne(P: Primitives, s: System, e: Event)
    ensures RunFrom(P, s, [e]) == Step(P, s, e)
  {
    hide Step;
    assert [e][..0] == [];
    assert RunFrom(P, s, []) == s;
  }

  lemma RunTwo(P: Primitives, s: System, e: Event, f: Event)
    ensures RunFrom(P, s, [e, f]) == Step(P, Step(P, s, e), f)
  {
    hide Step;
    RunOne(P, s, e);
    assert [e, f][..1] == [e];
  }

  lemma {:induction false} RunConcat(P: Primitives, s: System, es: seq<Event>, fs: seq<Event>)
    ensures RunFrom(P, s, es + fs) == RunFrom(P, RunFrom(P, s, es), fs)
  {
    hide Step;
    if |fs| == 0 {
      assert es + fs == es;
    } else {
      RunConcat(P, s, es, fs[..|fs| - 1]);
      assert (es + fs)[..|es + fs| - 1] == es + fs[..|fs| - 1];
    }
  }

  /** Two more steps of a run. */
  lemma RunPair(P: Primitives, s: System, es: seq<Event>, e: Event, f: Event)
    ensures RunFrom(P, s, es + [e, f]) == Step(P, Step(P, RunFrom(P, s, es), e), f)
  {
    hide Step, RunFrom;
    RunConcat(P, s, es, [e, f]);
    RunTwo(P, RunFrom(P, s, es), e, f);
  }

  lemma RunLast(P: Primitives, s: System, es: seq<Event>, e: Event)
    ensures RunFrom(P, s, es + [e]) == Step(P, RunFrom(P, s, es), e)
  {
    hide Step, RunFrom;
    RunConcat(P, s, es, [e]);
    RunOne(P, RunFrom(P, s, es), e);
  }
}
