/** The steps of the concurrent system, taken without interleaving, make up the requests: an ingest, an
    upload and a collection do to the server exactly what the handlers and the agent do. */
module SoloRuns {
  import opened Basics
  import opened XorbFormat
  import opened ServerModel
  import opened Planner
  import opened Agent
  import opened Protocol

  // ---- An upload ----

  lemma StoreForeignStep(P: Primitives, s: System, u: nat, hash: XorbHash, body: Bytes)
    requires u !in s.clients && u !in s.core.pending && P.validate(body, hash).Some?
    ensures var info := P.validate(body, hash).value;
            Step(P, s, StoreForeign(u, hash, body)) ==
              s.(core := if hash in s.core.server.blobs then s.core.(server := PutBlob(s.core.server, hash, body))
                         else StoreBlob(s.core, u, hash, body, info))
  {
    hide StoreBlob;
  }

  /** Blob step and index step together are the upload handler. */
  lemma SoloUpload(P: Primitives, s: System, u: nat, hash: XorbHash, body: Bytes)
    requires u !in s.clients && u !in s.core.pending && P.validate(body, hash).Some?
    requires |P.validate(body, hash).value.chunkHashes| == |P.validate(body, hash).value.unpackedOffsets|
    ensures var t := RunFrom(P, s, [StoreForeign(u, hash, body), FinishIndex(u)]);
            && t.core.server == Upload(s.core.server, hash, body, P.validate(body, hash).value)
            && t.core.pending == s.core.pending && t.core.collectors == s.core.collectors && t.clients == s.clients
  {
    hide Step, RunFrom, IndexXorb;
    RunTwo(P, s, StoreForeign(u, hash, body), FinishIndex(u));
    StoreForeignStep(P, s, u, hash, body);
    FinishStep(P, Step(P, s, StoreForeign(u, hash, body)), u);
    var info := P.validate(body, hash).value;
    if hash !in s.core.server.blobs {
      assert s.core.pending[u := Pending(hash, info)] - {u} == s.core.pending;
    }
  }

  /** The index step of somebody who is no client in the middle of one, or of nobody at all. */
  lemma FinishStep(P: Primitives, s: System, u: nat)
    requires u !in s.clients || !s.clients[u].phase.Indexing?
    ensures Step(P, s, FinishIndex(u)) == if u in s.core.pending then s.(core := IndexBlob(s.core, u)) else s
  {
    hide IndexBlob, Advance;
  }

  // ---- An ingest ----

  /** As many queries as there are chunks. */
  function Queries(c: nat, n: nat): seq<Event> {
    if n == 0 then [] else Queries(c, n - 1) + [Query(c)]
  }

  lemma QueryStep(P: Primitives, s: System, c: nat)
    requires c in s.clients && s.clients[c].phase.Running? && |s.clients[c].locs| < |s.clients[c].chunks|
    ensures var client := s.clients[c];
            Step(P, s, Query(c)) == WithClient(s, c,
              client.(locs := client.locs + [Lookup(s.core.server, client.chunks[|client.locs|])]))
  {
    hide Lookup;
  }

  /** The queries resolve every chunk against the index as it is. */
  lemma {:induction false} QueriesRun(P: Primitives, s: System, c: nat, n: nat)
    requires c in s.clients && s.clients[c].phase.Running? && s.clients[c].locs == [] && n <= |s.clients[c].chunks|
    ensures var client := s.clients[c];
            RunFrom(P, s, Queries(c, n))
            == WithClient(s, c, client.(locs := LookupAll(s.core.server, client.chunks[..n])))
  {
    hide Step, Lookup;
    var client := s.clients[c];
    if n == 0 {
      assert LookupAll(s.core.server, client.chunks[..0]) == [];
      assert WithClient(s, c, client) == s;
    } else {
      QueriesRun(P, s, c, n - 1);
      var before := RunFrom(P, s, Queries(c, n - 1));
      QueryStep(P, before, c);
      RunLast(P, s, Queries(c, n - 1), Query(c));
      assert LookupAll(s.core.server, client.chunks[..n])
          == LookupAll(s.core.server, client.chunks[..n - 1]) + [Lookup(s.core.server, client.chunks[n - 1])];
    }
  }

  /** The events of the walk from chunk `i` on: emit a known run, or store and index a novel group. */
  function WalkEvents(c: nat, chunks: seq<Chunk>, locs: Locs, i: nat): seq<Event>
    requires i <= |locs| == |chunks|
    decreases |locs| - i
  {
    if i == |locs| then [] else
    (if locs[i].Some? then [EmitKnown(c)] else [StoreNovel(c), FinishIndex(c)])
    + WalkEvents(c, chunks, locs, GroupEnd(chunks, locs, i))
  }

  /** Client `c` is at chunk `i` of its walk, with these terms; nothing of it is pending. */
  ghost predicate WalksAt(s: System, c: nat, client: Client) {
    && c in s.clients && s.clients[c] == client && c !in s.core.pending
    && client.phase.Running? && |client.locs| == |client.chunks| && client.i <= |client.chunks|
  }

  lemma EmitStep(P: Primitives, s: System, c: nat, client: Client)
    requires WalksAt(s, c, client) && AtGroup(client) && client.locs[client.i].Some?
    ensures Step(P, s, EmitKnown(c)) == WithClient(s, c, Advance(client))
  {
    hide Advance;
  }

  /** Storing and indexing one novel group, without interleaving. */
  lemma NovelSteps(P: Primitives, s: System, c: nat, client: Client)
    requires Lawful(P) && WalksAt(s, c, client) && AtGroup(client) && client.locs[client.i].None?
    requires P.serialize(NextGroup(client)).Some?
    ensures var t := Step(P, Step(P, s, StoreNovel(c)), FinishIndex(c));
            && t.core.server == UploadGroup(P, s.core.server, NextGroup(client))
            && t.core.pending == s.core.pending && t.core.collectors == s.core.collectors
            && t.clients == s.clients[c := Advance(client)]
  {
    hide GroupEnd, IndexXorb, Advance;
    var group := NextGroup(client);
    var body, info := UploadGroupInfo(P, group);
    var hash := XorbHash(group);
    assert |info.chunkHashes| == |info.unpackedOffsets|;
    hide Lawful, Describes;
    var t := Step(P, s, StoreNovel(c));
    if hash in s.core.server.blobs {
      assert t == System(s.core.(server := PutBlob(s.core.server, hash, body)), s.clients[c := Advance(client)]);
      assert Advance(client).phase.Running? by { AdvanceRuns(client); }
      FinishStep(P, t, c);
    } else {
      assert t == System(StoreBlob(s.core, c, hash, body, info), s.clients[c := client.(phase := Indexing)]);
      IndexingStep(P, t, c, client, hash, info);
      assert s.core.pending[c := Pending(hash, info)] - {c} == s.core.pending;
    }
  }

  lemma AdvanceRuns(client: Client)
    requires AtGroup(client)
    ensures Advance(client).phase.Running? && Advance(client.(phase := Indexing)) == Advance(client)
  {
    hide GroupEnd, TermFor;
  }

  lemma IndexingStep(P: Primitives, s: System, c: nat, client: Client, hash: XorbHash, info: XorbInfo)
    requires c in s.clients && s.clients[c] == client.(phase := Indexing) && AtGroup(client)
    requires c in s.core.pending && s.core.pending[c] == Pending(hash, info)
    requires |info.chunkHashes| == |info.unpackedOffsets|
    ensures var t := Step(P, s, FinishIndex(c));
            && t.core.server == IndexXorb(s.core.server, hash, info) && t.core.pending == s.core.pending - {c}
            && t.core.collectors == s.core.collectors && t.clients == s.clients[c := Advance(client)]
  {
    AdvanceRuns(client);
    hide Advance, IndexXorb;
  }

  /** The client after its walk. */
  function Walked(client: Client): Client
    requires client.i <= |client.locs| == |client.chunks|
  {
    client.(i := |client.chunks|, terms := client.terms + Plan(client.chunks, client.locs, client.i))
  }

  /** The walk emits the plan and performs its uploads. */
  lemma {:induction false} WalkRun(P: Primitives, s: System, c: nat, client: Client)
    requires Lawful(P) && WalksAt(s, c, client) && Packable(P, client.chunks, client.locs, client.i)
    ensures var t := RunFrom(P, s, WalkEvents(c, client.chunks, client.locs, client.i));
            && t.core.server == UploadsFrom(P, s.core.server, client.chunks, client.locs, client.i)
            && t.core.pending == s.core.pending && t.core.collectors == s.core.collectors
            && t.clients == s.clients[c := Walked(client)]
    decreases |client.locs| - client.i
  {
    hide Lawful, Step, RunFrom, GroupEnd, UploadGroup, TermFor;
    var chunks, locs, i := client.chunks, client.locs, client.i;
    if i == |locs| {
      assert client.terms + [] == client.terms;
      RunNone(P, s);
    } else {
      var j, next := GroupEnd(chunks, locs, i), Advance(client);
      AppendAssociates(client.terms, [TermFor(chunks, locs, i, j)], Plan(chunks, locs, j));
      var first := if locs[i].Some? then [EmitKnown(c)] else [StoreNovel(c), FinishIndex(c)];
      var t := RunFrom(P, s, first);
      if locs[i].Some? {
        RunOne(P, s, EmitKnown(c));
        EmitStep(P, s, c, client);
      } else {
        RunTwo(P, s, StoreNovel(c), FinishIndex(c));
        NovelSteps(P, s, c, client);
      }
      WalkRun(P, t, c, next);
      RunConcat(P, s, first, WalkEvents(c, chunks, locs, j));
      assert s.clients[c := next][c := Walked(next)] == s.clients[c := Walked(client)];
    }
  }

  lemma RunNone(P: Primitives, s: System)
    ensures RunFrom(P, s, []) == s
  {
  }

  /** The events of one whole ingest. */
  ghost function IngestEvents(P: Primitives, st: State, c: nat, bytes: Bytes, key: CatalogKey): seq<Event> {
    var chunks, locs := P.chunker(bytes), IngestLocs(P, st, bytes);
    [Start(c, bytes, key)] + Queries(c, |chunks|) + WalkEvents(c, chunks, locs, 0) + [RegisterFile(c)]
  }

  /** An ingest alone, step by step, is the agent's ingest: it succeeds exactly when that does, and the server
      is then as that leaves it. */
  lemma SoloIngest(P: Primitives, s: System, c: nat, bytes: Bytes, key: CatalogKey)
    requires Lawful(P) && Healthy(P, s.core.server) && c !in s.clients && c !in s.core.pending
    requires Packable(P, P.chunker(bytes), IngestLocs(P, s.core.server, bytes), 0)
    ensures var t, st := RunFrom(P, s, IngestEvents(P, s.core.server, c, bytes, key)), s.core.server;
            && c in t.clients && (t.clients[c].phase.Done? <==> CanIngest(P, st, bytes))
            && t.core.server == (if CanIngest(P, st, bytes) then Ingested(P, st, bytes, key)
                                 else AfterUploads(P, st, bytes))
            && t.core.pending == s.core.pending && t.core.collectors == s.core.collectors
  {
    hide Lawful, Healthy, Step, RunFrom, UploadsFrom, Packable, Plan, CanIngest, Lookup, CanRegister, TotalLen;
    var st, chunks, locs := s.core.server, P.chunker(bytes), IngestLocs(P, s.core.server, bytes);
    var e1, e2, e3 := [Start(c, bytes, key)], Queries(c, |chunks|), WalkEvents(c, chunks, locs, 0);
    var s1 := RunFrom(P, s, e1);
    assert s1 == WithClient(s, c, Client(chunks, key, [], 0, [], Running)) by { StartedAlone(P, s, c, bytes, key); }
    RunConcat(P, s, e1, e2);
    QueriesRun(P, s1, c, |chunks|);
    assert chunks[..|chunks|] == chunks;
    var client := Client(chunks, key, locs, 0, [], Running);
    var s2 := RunFrom(P, s, e1 + e2);
    assert s2 == WithClient(s, c, client);
    RunConcat(P, s, e1 + e2, e3);
    WalkRun(P, s2, c, client);
    var s3 := RunFrom(P, s, e1 + e2 + e3);
    assert [] + Plan(chunks, locs, 0) == Plan(chunks, locs, 0);
    RunLast(P, s, e1 + e2 + e3, RegisterFile(c));
    IngestRegisters(P, st, bytes);
    assert TotalLen(chunks) == |bytes| by { IngestSize(P, bytes); }
    RegisterAlone(P, s3, c);
  }

  lemma StartedAlone(P: Primitives, s: System, c: nat, bytes: Bytes, key: CatalogKey)
    requires c !in s.clients && c !in s.core.pending
    ensures RunFrom(P, s, [Start(c, bytes, key)]) == WithClient(s, c, Client(P.chunker(bytes), key, [], 0, [], Running))
  {
    RunOne(P, s, Start(c, bytes, key));
  }

  lemma RegisterAlone(P: Primitives, s: System, c: nat)
    requires c in s.clients && Walking(s.clients[c]) && s.clients[c].i == |s.clients[c].chunks|
    ensures var t, client := Step(P, s, RegisterFile(c)), s.clients[c];
            && c in t.clients && (t.clients[c].phase.Done? <==> CanRegister(s.core.server, client.terms))
            && t.core.pending == s.core.pending && t.core.collectors == s.core.collectors
            && var record := FileRecord(TotalLen(client.chunks), client.terms);
               t.core.server == (if CanRegister(s.core.server, client.terms)
                 then Register(s.core.server, FileHash(client.chunks), record, Some(client.key)) else s.core.server)
  {
    hide CanRegister, TotalLen, Register;
  }

  // ---- A collection ----

  lemma SweepOneRun(P: Primitives, s: System, g: nat, x: XorbHash)
    requires g in s.core.collectors && s.core.collectors[g].deleting.None? && x in s.core.collectors[g].todo
    ensures var t := RunFrom(P, s, [GcDelete(g, x), GcEvict(g)]);
            && t.core.server == Evict(DeleteBlob(s.core.server, x), x) && t.clients == s.clients
            && t.core.pending == s.core.pending
            && t.core.collectors == s.core.collectors[g := Collector(s.core.collectors[g].todo - {x}, None)]
  {
    hide Evict;
    RunTwo(P, s, GcDelete(g, x), GcEvict(g));
  }

  /** Delete and evict everything still to do, in some order. */
  lemma {:induction false} SweepRun(P: Primitives, s: System, g: nat, start: State, dead: set<XorbHash>)
    returns (es: seq<Event>)
    requires g in s.core.collectors && s.core.collectors[g].deleting.None? && s.core.server == Sweep(start, dead)
    ensures var t, todo := RunFrom(P, s, es), s.core.collectors[g].todo;
            && t.core.server == Sweep(start, dead + todo) && t.clients == s.clients && t.core.pending == s.core.pending
            && t.core.collectors == s.core.collectors[g := Collector({}, None)]
    decreases s.core.collectors[g].todo
  {
    hide Step, RunFrom, Sweep, Evict;
    var todo := s.core.collectors[g].todo;
    if todo == {} {
      es := [];
      RunNone(P, s);
      assert dead + {} == dead;
      assert s.core.collectors[g := Collector({}, None)] == s.core.collectors;
    } else {
      var x :| x in todo;
      SweepOneRun(P, s, g, x);
      SweepStep(start, dead, x);
      var t := RunFrom(P, s, [GcDelete(g, x), GcEvict(g)]);
      var rest := SweepRun(P, t, g, start, dead + {x});
      es := [GcDelete(g, x), GcEvict(g)] + rest;
      RunConcat(P, s, [GcDelete(g, x), GcEvict(g)], rest);
      assert dead + {x} + (todo - {x}) == dead + todo;
    }
  }

  /** A collection alone, step by step, is the collection handler. */
  lemma SoloCollection(P: Primitives, s: System, g: nat) returns (es: seq<Event>)
    requires g !in s.core.collectors
    ensures var t, st := RunFrom(P, s, es), s.core.server;
            && t.core.server == Sweep(st, Unreferenced(st)) && t.core.collectors == s.core.collectors
            && t.core.pending == s.core.pending && t.clients == s.clients
  {
    hide Step, RunFrom, Sweep, Unreferenced;
    var st := s.core.server;
    RunOne(P, s, GcMark(g));
    MarkAlone(P, s, g);
    var marked := RunFrom(P, s, [GcMark(g)]);
    SweepNothing(st);
    var sweep := SweepRun(P, marked, g, st, {});
    assert {} + Unreferenced(st) == Unreferenced(st);
    RunConcat(P, s, [GcMark(g)], sweep);
    var swept := RunFrom(P, s, [GcMark(g)] + sweep);
    es := [GcMark(g)] + sweep + [GcDone(g)];
    RunLast(P, s, [GcMark(g)] + sweep, GcDone(g));
    DoneAlone(P, swept, g);
    assert s.core.collectors[g := Collector({}, None)] - {g} == s.core.collectors;
  }

  lemma MarkAlone(P: Primitives, s: System, g: nat)
    requires g !in s.core.collectors
    ensures Step(P, s, GcMark(g))
         == s.(core := s.core.(collectors := s.core.collectors[g := Collector(Unreferenced(s.core.server), None)]))
  {
    hide Unreferenced;
  }

  lemma DoneAlone(P: Primitives, s: System, g: nat)
    requires g in s.core.collectors && s.core.collectors[g].todo == {}
    ensures Step(P, s, GcDone(g)) == s.(core := s.core.(collectors := s.core.collectors - {g}))
  {
  }
}
