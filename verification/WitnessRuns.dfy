/** Concrete runs from the empty server, on the toy primitives, in which collection races the other
    traffic: each failure described elsewhere is reached. */
module WitnessRuns {
  import opened Basics
  import opened XorbFormat
  import opened ServerModel
  import opened Planner
  import opened Reading
  import opened Agent
  import opened Protocol
  import opened GuardExactness
  import opened DedupHistory
  import opened Witness

  const ONE := XorbHash([[1]])
  const BOTH := XorbHash([[1], [2]])

  // ---- Uploads of others ----

  /** The server after an upload of `cs` and its index step. */
  function Uploaded(st: State, cs: seq<Chunk>): State
    requires |cs| + 1 < U32_LIMIT
  {
    IndexXorb(PutBlob(st, XorbHash(cs), Flatten(cs)), XorbHash(cs), SingleInfo(cs))
  }

  lemma StoreStep(s: System, u: nat, cs: seq<Chunk>)
    requires Singles(cs) && |cs| + 1 < U32_LIMIT && u !in s.clients && u !in s.core.pending
    requires XorbHash(cs) !in s.core.server.blobs
    ensures Step(TOY, s, StoreForeign(u, XorbHash(cs), Flatten(cs)))
         == s.(core := StoreBlob(s.core, u, XorbHash(cs), Flatten(cs), SingleInfo(cs)))
  {
    hide Flatten, SingleInfo, StoreBlob;
    assert TOY.validate(Flatten(cs), XorbHash(cs)) == Some(SingleInfo(cs));
  }

  lemma NotAClient(s: System, u: nat)
    requires u in s.core.pending && u !in s.clients
    ensures Step(TOY, s, FinishIndex(u)).clients == s.clients
  {
    hide IndexBlob, Advance, AtGroup;
  }

  lemma IndexBlobServer(k: Core, u: nat, x: XorbHash, info: XorbInfo)
    requires u in k.pending && k.pending[u] == Pending(x, info) && |info.chunkHashes| == |info.unpackedOffsets|
    ensures IndexBlob(k, u).server == IndexXorb(k.server, x, info)
  {
    hide IndexXorb;
  }

  lemma SingleInfoLengths(cs: seq<Chunk>)
    requires |cs| + 1 < U32_LIMIT
    ensures var info := SingleInfo(cs); |info.chunkHashes| == |info.unpackedOffsets|
  {
  }

  lemma ForeignUpload(s: System, u: nat, cs: seq<Chunk>)
    requires Singles(cs) && |cs| + 1 < U32_LIMIT && u !in s.clients && u !in s.core.pending
    requires XorbHash(cs) !in s.core.server.blobs
    ensures var t := Step(TOY, Step(TOY, s, StoreForeign(u, XorbHash(cs), Flatten(cs))), FinishIndex(u));
            && t.core.server == Uploaded(s.core.server, cs) && t.clients == s.clients
            && t.core.pending == s.core.pending && t.core.collectors == s.core.collectors
  {
    hide Flatten, SingleInfo, IndexBlob, Step;
    var x, body, info := XorbHash(cs), Flatten(cs), SingleInfo(cs);
    StoreStep(s, u, cs);
    var s1 := s.(core := StoreBlob(s.core, u, x, body, info));
    IndexStep(TOY, s1, u);
    NotAClient(s1, u);
    IndexBlobFrame(s1.core, u);
    assert s1.core.pending - {u} == s.core.pending;
    SingleInfoLengths(cs);
    IndexBlobServer(s1.core, u, x, info);
  }

  lemma UploadedLookup(st: State, cs: seq<Chunk>, c: Chunk)
    requires Singles(cs) && |cs| + 1 < U32_LIMIT
    ensures Lookup(Uploaded(st, cs), c)
         == if Lookup(st, c).Some? then Lookup(st, c)
            else if c in cs then Some(Hit(XorbHash(cs), FirstIndex(cs, c))) else None
  {
    ToyDescribes(XorbHash(cs));
    hide IndexXorb, Flatten, SingleInfo, Encodes, UnpackedAgree, FirstIndex;
    IndexedLookup(PutBlob(st, XorbHash(cs), Flatten(cs)), XorbHash(cs), SingleInfo(cs), c);
  }

  lemma UploadedParts(st: State, cs: seq<Chunk>)
    requires Singles(cs) && |cs| + 1 < U32_LIMIT && XorbHash(cs) !in st.blobs
    ensures var t := Uploaded(st, cs);
            && t.blobs == st.blobs[XorbHash(cs) := Flatten(cs)] && t.xorbs.Keys == st.xorbs.Keys + {XorbHash(cs)}
            && t.files == st.files
  {
    hide ServerModel.IndexChunks, Flatten, SingleInfo;
  }

  // ---- A registration racing a collection ----

  lemma OneChunkGroup(chunks: seq<Chunk>, locs: Locs)
    requires |chunks| == |locs| == 1
    ensures GroupEnd(chunks, locs, 0) == 1 && chunks[0..1] == chunks && TotalLen(chunks) == |chunks[0]|
  {
    hide GroupEnd;
    GroupEndMaximal(chunks, locs, 0);
    assert chunks[1..] == [];
    assert TotalLen(chunks[1..]) == 0;
  }

  const KEY: CatalogKey := ("v", "/f")
  const UPLOADING: seq<Event> := [Start(0, [1], KEY), Query(0)] + [StoreNovel(0), FinishIndex(0)]

  lemma Asked()
    ensures Step(TOY, Step(TOY, INITIAL, Start(0, [1], KEY)), Query(0))
         == System(INITIAL.core, map[0 := Client([[1]], KEY, [None], 0, [], Running)])
  {
    hide Lookup;
    assert TOY.chunker([1]) == [[1]];
    assert Lookup(EMPTY, [1]) == None by { EmptyLookup(); }
    var s := Step(TOY, INITIAL, Start(0, [1], KEY));
    var client := Client([[1]], KEY, [], 0, [], Running);
    assert s == System(INITIAL.core, map[0 := client]);
    assert client.locs + [None] == [None];
  }

  lemma EmptyLookup()
    ensures Lookup(EMPTY, [1]) == None
  {
  }

  lemma Stored(s: System)
    requires s == System(INITIAL.core, map[0 := Client([[1]], KEY, [None], 0, [], Running)])
    ensures Step(TOY, s, StoreNovel(0))
         == System(StoreBlob(INITIAL.core, 0, ONE, [1], SingleInfo([[1]])),
                   map[0 := Client([[1]], KEY, [None], 0, [], Indexing)])
  {
    var chunks: seq<Chunk>, locs: Locs := [[1]], [None];
    OneChunkGroup(chunks, locs);
    FlattenOne([1 as Byte]);
    hide GroupEnd, Flatten, SingleInfo;
    assert TOY.serialize(chunks) == Some([1]) && TOY.validate([1], ONE) == Some(SingleInfo(chunks));
  }

  lemma Indexed(s: System)
    requires s == System(StoreBlob(INITIAL.core, 0, ONE, [1], SingleInfo([[1]])),
                         map[0 := Client([[1]], KEY, [None], 0, [], Indexing)])
    ensures var t := Step(TOY, s, FinishIndex(0));
            && t.core.server == Uploaded(EMPTY, [[1]]) && t.core.pending == map[] && t.core.collectors == map[]
            && t.clients == map[0 := Client([[1]], KEY, [None], 1, [Term(ONE, 0, 1, 1)], Running)]
  {
    var chunks: seq<Chunk>, locs: Locs := [[1]], [None];
    OneChunkGroup(chunks, locs);
    FlattenOne([1 as Byte]);
    hide GroupEnd, Flatten, IndexXorb;
    var client := s.clients[0];
    assert Advance(client) == Client([[1]], KEY, [None], 1, [Term(ONE, 0, 1, 1)], Running);
  }

  lemma UploadingRun()
    ensures var t := Run(TOY, UPLOADING);
            && t.core.server == Uploaded(EMPTY, [[1]]) && t.core.pending == map[] && t.core.collectors == map[]
            && t.clients == map[0 := Client([[1]], KEY, [None], 1, [Term(ONE, 0, 1, 1)], Running)]
  {
    hide Step, RunFrom, Uploaded;
    RunTwo(TOY, INITIAL, Start(0, [1], KEY), Query(0));
    Asked();
    RunPair(TOY, INITIAL, [Start(0, [1], KEY), Query(0)], StoreNovel(0), FinishIndex(0));
    var s := RunFrom(TOY, INITIAL, [Start(0, [1], KEY), Query(0)]);
    Stored(s);
    Indexed(Step(TOY, s, StoreNovel(0)));
  }

  const LOSING_RUN: seq<Event> := UPLOADING + [GcMark(0), RegisterFile(0)] + [GcDelete(0, ONE)]

  lemma MarkedThenRegistered(s: System)
    requires s.core.server.xorbs.Keys == {ONE} && s.core.server.files == map[] && s.core.collectors == map[]
    requires s.clients == map[0 := Client([[1]], KEY, [None], 1, [Term(ONE, 0, 1, 1)], Running)]
    ensures var t := Step(TOY, Step(TOY, s, GcMark(0)), RegisterFile(0));
            && t.core.server.files.Keys == {FileHash([[1]])}
            && t.core.server.files[FileHash([[1]])].terms == [Term(ONE, 0, 1, 1)]
            && KEY in t.core.server.catalog && t.core.server.catalog[KEY] == FileHash([[1]])
            && t.core.collectors == map[0 := Collector({ONE}, None)]
  {
    var k := Mark(s.core, 0);
    assert Unreferenced(s.core.server) == {ONE};
    assert CanRegister(s.core.server, [Term(ONE, 0, 1, 1)]);
  }

  /** A file is ingested; a collection marks its xorb just before the registration and deletes it just
      after.  The registration has succeeded, and the file, without any repeated chunk, is lost. */
  lemma RegistrationRaceReached()
    ensures var s := Run(TOY, LOSING_RUN).core.server;
            && FileHash([[1]]) in s.files && KEY in s.catalog && s.catalog[KEY] == FileHash([[1]])
            && !FilesIntact(s) && ReadBack(TOY, s, FileHash([[1]])).Err?
  {
    hide Step, RunFrom, Uploaded, ReadBack, ReadUpTo;
    UploadingRun();
    UploadedParts(EMPTY, [[1]]);
    var s := Run(TOY, UPLOADING);
    RunPair(TOY, INITIAL, UPLOADING, GcMark(0), RegisterFile(0));
    MarkedThenRegistered(s);
    var t := Run(TOY, UPLOADING + [GcMark(0), RegisterFile(0)]);
    RunLast(TOY, INITIAL, UPLOADING + [GcMark(0), RegisterFile(0)], GcDelete(0, ONE));
    DeleteOne(t);
    var lost := Run(TOY, LOSING_RUN).core.server;
    assert lost.files[FileHash([[1]])].terms[0].xorb !in lost.blobs;
    MissingBlobLosesFile(TOY, lost, FileHash([[1]]), 0);
  }

  lemma DeleteOne(t: System)
    requires t.core.collectors == map[0 := Collector({ONE}, None)]
    ensures Step(TOY, t, GcDelete(0, ONE))
         == t.(core := t.core.(server := DeleteBlob(t.core.server, ONE),
                               collectors := map[0 := Collector({ONE}, Some(ONE))]))
  {
  }

  // ---- An upload racing a collection ----

  const REUPLOAD: seq<Event> := [StoreForeign(1, ONE, [1]), FinishIndex(1)]
  const ORPHAN_RUN: seq<Event> := REUPLOAD + [GcMark(0), GcDelete(0, ONE)] + REUPLOAD + [GcEvict(0)]

  lemma MarkedAndDeleted(s: System)
    requires s.core.server.xorbs.Keys == {ONE} && s.core.server.files == map[] && s.core.collectors == map[]
    ensures var t := Step(TOY, Step(TOY, s, GcMark(0)), GcDelete(0, ONE));
            && t.core.server == DeleteBlob(s.core.server, ONE) && t.core.pending == s.core.pending
               && t.clients == s.clients
            && t.core.collectors == map[0 := Collector({ONE}, Some(ONE))]
  {
    assert Unreferenced(s.core.server) == {ONE};
    DeleteOne(Step(TOY, s, GcMark(0)));
  }

  lemma EvictOne(t: System)
    requires t.core.collectors == map[0 := Collector({ONE}, Some(ONE))]
    ensures Step(TOY, t, GcEvict(0))
         == t.(core := t.core.(server := Evict(t.core.server, ONE), collectors := map[0 := Collector({}, None)]))
  {
    assert {ONE} - {ONE} == {};
  }

  /** Somebody uploads a xorb again while it is being collected: it ends up stored and not indexed, and
      no file can ever use it again. */
  lemma UploadRaceReached(es: seq<Event>)
    ensures !UploadsIntact(Run(TOY, ORPHAN_RUN).core) && Poisoned(Run(TOY, ORPHAN_RUN).core, ONE)
    ensures forall terms: seq<Term>, i :: 0 <= i < |terms| && terms[i].xorb == ONE ==>
              !CanRegister(Run(TOY, ORPHAN_RUN + es).core.server, terms)
  {
    hide Step, RunFrom, Uploaded, CanRegister;
    var cs: seq<Chunk> := [[1]];
    FlattenOne([1 as Byte]);
    RunTwo(TOY, INITIAL, StoreForeign(1, ONE, [1]), FinishIndex(1));
    ForeignUpload(INITIAL, 1, cs);
    UploadedParts(EMPTY, cs);
    var s1 := Run(TOY, REUPLOAD);
    RunPair(TOY, INITIAL, REUPLOAD, GcMark(0), GcDelete(0, ONE));
    MarkedAndDeleted(s1);
    var es2 := REUPLOAD + [GcMark(0), GcDelete(0, ONE)];
    var s2 := Run(TOY, es2);
    RunPair(TOY, INITIAL, es2, StoreForeign(1, ONE, [1]), FinishIndex(1));
    ForeignUpload(s2, 1, cs);
    UploadedParts(s2.core.server, cs);
    var s3 := Run(TOY, es2 + REUPLOAD);
    RunLast(TOY, INITIAL, es2 + REUPLOAD, GcEvict(0));
    EvictOne(s3);
    var k := Run(TOY, ORPHAN_RUN).core;
    assert ONE in k.server.blobs && ONE !in k.server.xorbs && k.pending == map[];
    assert Poisoned(k, ONE);
    RunConcat(TOY, INITIAL, ORPHAN_RUN, es);
    PoisonedForEver(TOY, Run(TOY, ORPHAN_RUN), es, ONE);
  }

  // ---- A chunk forgotten with its first holder ----

  const TWO_UPLOADS: seq<Event> := REUPLOAD + [StoreForeign(2, BOTH, [1, 2]), FinishIndex(2)]
  const USE_SECOND: seq<Event> := TWO_UPLOADS + [Start(0, [2], KEY), Query(0)] + [EmitKnown(0), RegisterFile(0)]
  const FORGETTING_RUN: seq<Event> := USE_SECOND + [GcMark(0), GcDelete(0, ONE)] + [GcEvict(0)]

  lemma AfterTwoUploads()
    ensures var s := Run(TOY, TWO_UPLOADS);
            && s.core.server == Uploaded(Uploaded(EMPTY, [[1]]), [[1], [2]])
            && s.core.pending == map[] && s.core.collectors == map[] && s.clients == map[]
  {
    hide Step, RunFrom, Uploaded;
    var one: seq<Chunk>, both: seq<Chunk> := [[1]], [[1], [2]];
    FlattenOne([1 as Byte]);
    FlattenSingles(both);
    assert Flatten(both) == [1, 2];
    RunTwo(TOY, INITIAL, StoreForeign(1, ONE, [1]), FinishIndex(1));
    ForeignUpload(INITIAL, 1, one);
    UploadedParts(EMPTY, one);
    RunPair(TOY, INITIAL, REUPLOAD, StoreForeign(2, BOTH, [1, 2]), FinishIndex(2));
    ForeignUpload(Run(TOY, REUPLOAD), 2, both);
  }

  /** Chunk 1 is known by the first xorb, chunk 2 by the second, which holds both. */
  lemma TwoUploadsState()
    ensures var st := Uploaded(Uploaded(EMPTY, [[1]]), [[1], [2]]);
            && st.xorbs.Keys == {ONE, BOTH} && st.files == map[]
            && Lookup(st, [1]) == Some(Hit(ONE, 0)) && Lookup(st, [2]) == Some(Hit(BOTH, 1))
  {
    var one: seq<Chunk>, both: seq<Chunk> := [[1]], [[1], [2]];
    UploadedParts(EMPTY, one);
    UploadedParts(Uploaded(EMPTY, one), both);
    UploadedLookup(EMPTY, one, [1]);
    UploadedLookup(EMPTY, one, [2]);
    UploadedLookup(Uploaded(EMPTY, one), both, [1]);
    UploadedLookup(Uploaded(EMPTY, one), both, [2]);
    hide Uploaded, FirstIndex;
    assert Lookup(EMPTY, [1]) == None && Lookup(EMPTY, [2]) == None;
    FirstIndexUnique(one, [1], 0);
    FirstIndexUnique(both, [2], 1);
  }

  lemma StartKnown(s: System)
    requires s.clients == map[] && s.core.pending == map[] && Lookup(s.core.server, [2]) == Some(Hit(BOTH, 1))
    ensures Step(TOY, Step(TOY, s, Start(0, [2], KEY)), Query(0))
         == System(s.core, map[0 := Client([[2]], KEY, [Some(Hit(BOTH, 1))], 0, [], Running)])
  {
    hide Lookup;
    assert TOY.chunker([2]) == [[2]];
    var client := Client([[2]], KEY, [], 0, [], Running);
    assert Step(TOY, s, Start(0, [2], KEY)) == System(s.core, map[0 := client]);
    assert client.locs + [Some(Hit(BOTH, 1))] == [Some(Hit(BOTH, 1))];
  }

  lemma RegisterKnown(s: System)
    requires s.clients == map[0 := Client([[2]], KEY, [Some(Hit(BOTH, 1))], 0, [], Running)]
    requires BOTH in s.core.server.xorbs && s.core.server.files == map[]
    ensures var t := Step(TOY, Step(TOY, s, EmitKnown(0)), RegisterFile(0));
            && t.core.server.files.Keys == {FileHash([[2]])}
            && t.core.server.files[FileHash([[2]])].terms == [Term(BOTH, 1, 2, 1)]
            && SameDedup(s.core.server, t.core.server) && t.core.collectors == s.core.collectors
  {
    var chunks: seq<Chunk>, locs: Locs := [[2]], [Some(Hit(BOTH, 1))];
    OneChunkGroup(chunks, locs);
    hide GroupEnd;
    var client := s.clients[0];
    assert Advance(client) == Client([[2]], KEY, [Some(Hit(BOTH, 1))], 1, [Term(BOTH, 1, 2, 1)], Running);
    assert CanRegister(s.core.server, [Term(BOTH, 1, 2, 1)]);
  }

  lemma MarkFirst(s: System)
    requires s.core.server.xorbs.Keys == {ONE, BOTH} && s.core.collectors == map[]
    requires s.core.server.files.Keys == {FileHash([[2]])}
      && s.core.server.files[FileHash([[2]])].terms == [Term(BOTH, 1, 2, 1)]
    ensures var t := Step(TOY, Step(TOY, s, GcMark(0)), GcDelete(0, ONE));
            && t.core.server == DeleteBlob(s.core.server, ONE)
               && t.core.collectors == map[0 := Collector({ONE}, Some(ONE))]
  {
    assert s.core.server.files[FileHash([[2]])].terms[0].xorb == BOTH;
    assert BOTH in Referenced(s.core.server.files) && ONE !in Referenced(s.core.server.files);
    assert Unreferenced(s.core.server) == {ONE};
    DeleteOne(Step(TOY, s, GcMark(0)));
  }

  lemma ForgetFirst(st: State)
    requires st.xorbs.Keys == {ONE, BOTH} && Lookup(st, [1]) == Some(Hit(ONE, 0))
    ensures var t := Evict(DeleteBlob(st, ONE), ONE); BOTH in t.xorbs && Lookup(t, [1]) == None && !DedupComplete(t)
  {
    var t := Evict(DeleteBlob(st, ONE), ONE);
    assert BOTH in t.xorbs && BOTH.chunks[0] == [1] && ChunkHash([1]) !in t.chunkIndex;
  }

  lemma UseSecondRun()
    ensures var s := Run(TOY, USE_SECOND);
            && s.core.server.xorbs.Keys == {ONE, BOTH} && Lookup(s.core.server, [1]) == Some(Hit(ONE, 0))
            && s.core.server.files.Keys == {FileHash([[2]])} && s.core.collectors == map[]
            && s.core.server.files[FileHash([[2]])].terms == [Term(BOTH, 1, 2, 1)]
  {
    hide Step, RunFrom, Uploaded;
    AfterTwoUploads();
    TwoUploadsState();
    var s := Run(TOY, TWO_UPLOADS);
    RunPair(TOY, INITIAL, TWO_UPLOADS, Start(0, [2], KEY), Query(0));
    StartKnown(s);
    RunPair(TOY, INITIAL, TWO_UPLOADS + [Start(0, [2], KEY), Query(0)], EmitKnown(0), RegisterFile(0));
    RegisterKnown(Run(TOY, TWO_UPLOADS + [Start(0, [2], KEY), Query(0)]));
  }

  /** Two xorbs share a chunk, a file uses only the second, and an undisturbed collection sweeps the
      first: the chunk is still stored, but a query for it finds nothing. */
  lemma CompletenessLostReached()
    ensures var s := Run(TOY, FORGETTING_RUN).core.server;
            && BOTH in s.xorbs && BOTH.chunks[0] == [1] && Lookup(s, [1]) == None && !DedupComplete(s)
  {
    hide Step, RunFrom, Lookup, DedupComplete;
    UseSecondRun();
    var s := Run(TOY, USE_SECOND);
    RunPair(TOY, INITIAL, USE_SECOND, GcMark(0), GcDelete(0, ONE));
    MarkFirst(s);
    RunLast(TOY, INITIAL, USE_SECOND + [GcMark(0), GcDelete(0, ONE)], GcEvict(0));
    EvictOne(Run(TOY, USE_SECOND + [GcMark(0), GcDelete(0, ONE)]));
    ForgetFirst(s.core.server);
  }
}
