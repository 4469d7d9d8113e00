/** Without collection the dedup index is a plain scan of all xorbs in the order they were indexed,
    first occurrence winning.  Eviction breaks completeness, and exactly how is stated last. */
module DedupHistory {
  import opened Basics
  import opened XorbFormat
  import opened ServerModel
  import opened Planner
  import opened Agent
  import opened Protocol

  /** First position of `c`, which must occur. */
  function FirstIndex(chunks: seq<Chunk>, c: Chunk): (i: nat)
    requires c in chunks
    ensures i < |chunks| && chunks[i] == c && c !in chunks[..i]
  {
    if chunks[0] == c then 0 else
    var rest := FirstIndex(chunks[1..], c);
    assert chunks[..rest + 1] == [chunks[0]] + chunks[1..][..rest];
    rest + 1
  }

  /** The reference: look through the xorbs in order. */
  function Scan(order: seq<XorbHash>, c: Chunk): Option<Hit> {
    if |order| == 0 then None
    else if c in order[0].chunks then Some(Hit(order[0], FirstIndex(order[0].chunks, c)))
    else Scan(order[1..], c)
  }

  lemma {:induction false} ScanSnoc(order: seq<XorbHash>, x: XorbHash, c: Chunk)
    ensures Scan(order + [x], c)
         == if Scan(order, c).Some? then Scan(order, c)
            else if c in x.chunks then Some(Hit(x, FirstIndex(x.chunks, c))) else None
  {
    if |order| == 0 {
      assert order + [x] == [x];
      assert Scan([x][1..], c) == None;
    } else {
      ScanSnoc(order[1..], x, c);
      assert (order + [x])[1..] == order[1..] + [x];
    }
  }

  ghost predicate IndexIsScan(k: Core) {
    forall c :: Lookup(k.server, c) == Scan(k.order, c)
  }

  /** `order` lists the indexed xorbs, each once. */
  ghost predicate OrderExact(k: Core) {
    (forall x :: x in k.order <==> x in k.server.xorbs) && Distinct(k.order)
  }

  lemma {:induction false} FirstIndexUnique(chunks: seq<Chunk>, c: Chunk, i: nat)
    requires i < |chunks| && chunks[i] == c && c !in chunks[..i]
    ensures c in chunks && FirstIndex(chunks, c) == i
  {
    if i > 0 {
      assert chunks[..i][0] == chunks[0];
      assert chunks[1..][..i - 1] == chunks[..i][1..];
      FirstIndexUnique(chunks[1..], c, i - 1);
    }
  }

  lemma ListsMember(h: XorbHash, info: XorbInfo, c: Chunk)
    requires Lists(h, info)
    ensures c in h.chunks <==> ChunkHash(c) in info.chunkHashes
  {
    if c in h.chunks {
      var q :| 0 <= q < |h.chunks| && h.chunks[q] == c;
      assert info.chunkHashes[q] == ChunkHash(c);
    }
    if ChunkHash(c) in info.chunkHashes {
      var q :| 0 <= q < |info.chunkHashes| && info.chunkHashes[q] == ChunkHash(c);
      assert h.chunks[q] == c;
    }
  }

  /** Where indexing `h` leaves chunk `c`. */
  lemma IndexedLookup(s: State, h: XorbHash, info: XorbInfo, c: Chunk)
    requires Lists(h, info)
    ensures Lookup(IndexXorb(s, h, info), c)
         == if Lookup(s, c).Some? then Lookup(s, c)
            else if c in h.chunks then Some(Hit(h, FirstIndex(h.chunks, c))) else None
  {
    var n, ch := |info.chunkHashes|, ChunkHash(c);
    IndexChunksFirst(s.chunkIndex, h, info, n);
    hide ServerModel.IndexChunks, UnpackedAgree;
    assert info.chunkHashes[..n] == info.chunkHashes;
    var r := IndexXorb(s, h, info).chunkIndex;
    ListsMember(h, info, c);
    if ch !in s.chunkIndex && ch in r {
      var i := r[ch].index;
      forall q | 0 <= q < i
        ensures h.chunks[q] != c
      {
        assert info.chunkHashes[..i][q] == ChunkHash(h.chunks[q]);
      }
      FirstIndexUnique(h.chunks, c, i);
    }
  }

  predicate NoCollection(es: seq<Event>) {
    forall i :: 0 <= i < |es| ==> !es[i].GcMark?
  }

  lemma ScanAfterIndex(k: Core, u: nat)
    requires u in k.pending && IndexIsScan(k) && Lists(k.pending[u].hash, k.pending[u].info)
    requires k.pending[u].hash !in k.server.xorbs
    ensures IndexIsScan(IndexBlob(k, u))
  {
    hide IndexXorb, Scan, Lookup, UnpackedAgree;
    var p, k' := k.pending[u], IndexBlob(k, u);
    ListsLengths(p.hash, p.info);
    forall c
      ensures Lookup(k'.server, c) == Scan(k'.order, c)
    {
      IndexedLookup(k.server, p.hash, p.info, c);
      ScanSnoc(k.order, p.hash, c);
    }
  }

  lemma SameIndexSameScan(k: Core, k': Core)
    requires IndexIsScan(k) && k'.server.chunkIndex == k.server.chunkIndex && k'.order == k.order
    ensures IndexIsScan(k')
  {
    hide Scan;
    forall c
      ensures Lookup(k'.server, c) == Scan(k'.order, c)
    {
      assert Lookup(k.server, c) == Scan(k.order, c);
    }
  }

  lemma ScanKept(P: Primitives, s: System, e: Event)
    requires CoreInv(P, s.core) && s.core.collectors == map[] && IndexIsScan(s.core) && !e.GcMark?
    ensures IndexIsScan(Step(P, s, e).core) && Step(P, s, e).core.collectors == map[]
  {
    hide CoreInv, GroupEnd, Advance, AtGroup, NextGroup, CanRegister, Unreferenced, Doomed, IndexXorb, Lists,
      IndexIsScan;
    if e.FinishIndex? && e.u in s.core.pending {
      PendingLists(P, s.core, e.u);
      ScanAfterIndex(s.core, e.u);
    } else {
      SameIndexSameScan(s.core, Step(P, s, e).core);
    }
  }

  lemma PendingLists(P: Primitives, k: Core, u: nat)
    requires CoreInv(P, k) && u in k.pending
    ensures Lists(k.pending[u].hash, k.pending[u].info) && k.pending[u].hash !in k.server.xorbs
  {
    hide OffsetsMatchBlobs, DedupSound, FilesOk, IndexedStored, BlobsOwned, OneInserter, CollectorsOk, Doomed,
      Encodes, Lists;
    assert PendingOk(P, k, k.pending[u]);
  }

  lemma OrderKept(P: Primitives, s: System, e: Event)
    requires s.core.collectors == map[] && OrderExact(s.core)
    ensures OrderExact(Step(P, s, e).core)
  {
    hide OrderExact, GroupEnd, Advance, AtGroup, NextGroup, CanRegister, Unreferenced, ServerModel.IndexChunks;
    if e.FinishIndex? && e.u in s.core.pending {
      OrderAfterIndex(s.core, e.u);
    } else {
      SameOrderExact(s.core, Step(P, s, e).core);
    }
  }

  lemma OrderAfterIndex(k: Core, u: nat)
    requires u in k.pending && OrderExact(k)
    ensures OrderExact(IndexBlob(k, u))
  {
    hide ServerModel.IndexChunks;
  }

  lemma SameOrderExact(k: Core, k': Core)
    requires OrderExact(k) && k'.order == k.order && k'.server.xorbs == k.server.xorbs
    ensures OrderExact(k')
  {
  }

  lemma NoCollectorNoDoom(s: System, e: Event)
    requires s.core.collectors == map[]
    ensures Guard(s, e)
  {
  }

  lemma {:induction false} NoCollectionRuns(P: Primitives, es: seq<Event>)
    requires Lawful(P) && NoCollection(es)
    ensures Guarded(P, es) && Inv(P, Run(P, es)) && NamesOk(Run(P, es))
    ensures IndexIsScan(Run(P, es).core) && OrderExact(Run(P, es).core) && Run(P, es).core.collectors == map[]
  {
    hide Step, Lawful, CoreInv, ClientsOk, IndexIsScan, OrderExact, NamesOk, Guard;
    if |es| == 0 {
      InitialInv(P);
      InitialScan();
    } else {
      var init, e := es[..|es| - 1], es[|es| - 1];
      NoCollectionRuns(P, init);
      NoCollectorNoDoom(Run(P, init), e);
      StepKeeps(P, Run(P, init), e);
      NamesKept(P, Run(P, init), e);
      ScanKept(P, Run(P, init), e);
      OrderKept(P, Run(P, init), e);
    }
  }

  lemma InitialScan()
    ensures IndexIsScan(INITIAL.core) && OrderExact(INITIAL.core)
  {
  }

  /** In every run without collection, each dedup answer is that of a plain scan of all indexed xorbs,
      each looked at once, in the order in which they were indexed. */
  lemma DedupIsFirstOccurrence(P: Primitives, es: seq<Event>, c: Chunk)
    requires Lawful(P) && NoCollection(es)
    ensures var k := Run(P, es).core;
            && Lookup(k.server, c) == Scan(k.order, c)
            && (forall x :: x in k.order <==> x in k.server.xorbs) && Distinct(k.order)
  {
    NoCollectionRuns(P, es);
    hide RunFrom, Lawful, Lookup, Scan;
  }

  /** What survives a collection: exactly the answers that did not point into a swept xorb.  A hash
      that a surviving xorb also holds is forgotten with its first occurrence. */
  lemma EvictionForgets(s: State, dead: set<XorbHash>, c: Chunk)
    ensures Lookup(Sweep(s, dead), c)
         == if Lookup(s, c).Some? && Lookup(s, c).value.xorb !in dead then Lookup(s, c) else None
  {
  }

  /** So completeness is lost exactly when a surviving xorb holds a chunk first indexed elsewhere
      in a swept one. */
  lemma CompletenessAfterSweep(s: State, dead: set<XorbHash>)
    requires DedupComplete(s)
    ensures DedupComplete(Sweep(s, dead))
       <==> forall x, i :: x in s.xorbs && x !in dead && 0 <= i < |x.chunks| ==>
              Lookup(s, x.chunks[i]).Some? && Lookup(s, x.chunks[i]).value.xorb !in dead
  {
    var t := Sweep(s, dead);
    if DedupComplete(t) {
      forall x, i | x in s.xorbs && x !in dead && 0 <= i < |x.chunks|
        ensures Lookup(s, x.chunks[i]).Some? && Lookup(s, x.chunks[i]).value.xorb !in dead
      {
        assert x in t.xorbs && ChunkHash(x.chunks[i]) in t.chunkIndex;
      }
    } else {
      var x, i :| x in t.xorbs && 0 <= i < |x.chunks| && ChunkHash(x.chunks[i]) !in t.chunkIndex;
      assert ChunkHash(x.chunks[i]) in s.chunkIndex;
    }
  }

  lemma {:induction false} ScanFinds(order: seq<XorbHash>, x: XorbHash, c: Chunk)
    requires x in order && c in x.chunks
    ensures Scan(order, c).Some?
  {
    if c !in order[0].chunks {
      ScanFinds(order[1..], x, c);
    }
  }

  lemma ScanComplete(k: Core)
    requires IndexIsScan(k) && OrderExact(k)
    ensures DedupComplete(k.server)
  {
    hide Scan;
    forall x, i | x in k.server.xorbs && 0 <= i < |x.chunks|
      ensures ChunkHash(x.chunks[i]) in k.server.chunkIndex
    {
      ScanFinds(k.order, x, x.chunks[i]);
      assert Lookup(k.server, x.chunks[i]) == Scan(k.order, x.chunks[i]);
    }
  }

  /** The first collection after any run: every chunk of every xorb was findable before it, and is
      afterwards if and only if no surviving xorb holds a chunk whose first holder, in the order of
      indexing, no file names. */
  lemma CompletenessAfterCollection(P: Primitives, es: seq<Event>)
    requires Lawful(P) && NoCollection(es)
    ensures var k := Run(P, es).core; var dead := Unreferenced(k.server);
            && DedupComplete(k.server)
            && (DedupComplete(Sweep(k.server, dead)) <==>
                forall x, i :: x in k.server.xorbs && x !in dead && 0 <= i < |x.chunks| ==>
                  Scan(k.order, x.chunks[i]).Some?
                    && Scan(k.order, x.chunks[i]).value.xorb in Referenced(k.server.files))
  {
    hide RunFrom, Lawful, Scan, Lookup, Sweep, DedupComplete, Inv, NamesOk, GuardedFrom, Referenced, OrderExact;
    NoCollectionRuns(P, es);
    var k := Run(P, es).core;
    ScanComplete(k);
    CompletenessAfterSweep(k.server, Unreferenced(k.server));
    forall c
      ensures Lookup(k.server, c) == Scan(k.order, c)
        && (Scan(k.order, c).Some? ==> Scan(k.order, c).value.xorb in k.server.xorbs)
    {
      ScanHitsIndexed(k, c);
    }
  }

  lemma ScanHitsIndexed(k: Core, c: Chunk)
    requires OrderExact(k)
    ensures Scan(k.order, c).Some? ==> Scan(k.order, c).value.xorb in k.server.xorbs
  {
    ScanHits(k.order, c);
  }

  lemma {:induction false} ScanHits(order: seq<XorbHash>, c: Chunk)
    ensures Scan(order, c).Some? ==> Scan(order, c).value.xorb in order
  {
    if |order| > 0 && c !in order[0].chunks {
      ScanHits(order[1..], c);
    }
  }

  // ---- Runs with collections ----

  /** What happens to the dedup index. */
  datatype Moment = Indexed(x: XorbHash) | Evicted(x: XorbHash)

  /** The index or evict step an event performs. */
  ghost function MomentOf(s: System, e: Event): seq<Moment> {
    match e
    case FinishIndex(u) => if u in s.core.pending then [Indexed(s.core.pending[u].hash)] else []
    case GcEvict(g) =>
      if g in s.core.collectors && s.core.collectors[g].deleting.Some?
      then [Evicted(s.core.collectors[g].deleting.value)] else []
    case _ => []
  }

  ghost function History(P: Primitives, es: seq<Event>): seq<Moment> {
    if |es| == 0 then [] else History(P, es[..|es| - 1]) + MomentOf(Run(P, es[..|es| - 1]), es[|es| - 1])
  }

  function NextRecent(before: seq<XorbHash>, m: Moment, c: Chunk): seq<XorbHash> {
    match m
    case Indexed(x) => before + [x]
    case Evicted(x) => if Scan(before, c).Some? && Scan(before, c).value.xorb == x then [] else before
  }

  /** The xorbs indexed since chunk `c` was last forgotten, in order: it is forgotten when the first of them
      that holds it is evicted. */
  function Recent(history: seq<Moment>, c: Chunk): seq<XorbHash> {
    if |history| == 0 then []
    else NextRecent(Recent(history[..|history| - 1], c), history[|history| - 1], c)
  }

  lemma RecentSnoc(history: seq<Moment>, m: Moment, c: Chunk)
    ensures Recent(history + [m], c) == NextRecent(Recent(history, c), m, c)
  {
    hide NextRecent;
    assert (history + [m])[..|history|] == history;
  }

  lemma AnswerStep(P: Primitives, s: System, e: Event, history: seq<Moment>, c: Chunk)
    requires PendingListed(s.core) && Lookup(s.core.server, c) == Scan(Recent(history, c), c)
    ensures Lookup(Step(P, s, e).core.server, c) == Scan(Recent(history + MomentOf(s, e), c), c)
  {
    hide Scan, Recent, Lookup, Encodes, IndexXorb, Evict, Step, FirstIndex, Lists;
    assert history + [] == history;
    match e {
      case FinishIndex(u) =>
        if u in s.core.pending {
          var p, before := s.core.pending[u], Recent(history, c);
          RecentSnoc(history, Indexed(p.hash), c);
          IndexServer(P, s, u);
          IndexedLookup(s.core.server, p.hash, p.info, c);
          ScanSnoc(before, p.hash, c);
        } else {
          OtherStep(P, s, e);
          SameLookup(s.core.server, Step(P, s, e).core.server, c);
        }
      case GcEvict(g) =>
        if g in s.core.collectors && s.core.collectors[g].deleting.Some? {
          var x := s.core.collectors[g].deleting.value;
          RecentSnoc(history, Evicted(x), c);
          EvictServer(P, s, g);
          EvictLookup(s.core.server, x, c);
          ScanNothing(c);
        } else {
          OtherStep(P, s, e);
          SameLookup(s.core.server, Step(P, s, e).core.server, c);
        }
      case _ =>
        OtherStep(P, s, e);
        SameLookup(s.core.server, Step(P, s, e).core.server, c);
    }
  }

  lemma ScanNothing(c: Chunk)
    ensures Scan([], c) == None
  {
  }

  lemma SameLookup(s: State, t: State, c: Chunk)
    requires t.chunkIndex == s.chunkIndex
    ensures Lookup(t, c) == Lookup(s, c)
  {
  }

  lemma IndexServer(P: Primitives, s: System, u: nat)
    requires u in s.core.pending && PendingListed(s.core)
    ensures var p := s.core.pending[u];
            && Step(P, s, FinishIndex(u)).core.server == IndexXorb(s.core.server, p.hash, p.info)
            && Lists(p.hash, p.info)
  {
    hide IndexXorb, Lists, GroupEnd, TermFor;
    assert Lists(s.core.pending[u].hash, s.core.pending[u].info);
    ListsLengths(s.core.pending[u].hash, s.core.pending[u].info);
  }

  lemma EvictServer(P: Primitives, s: System, g: nat)
    requires g in s.core.collectors && s.core.collectors[g].deleting.Some?
    ensures Step(P, s, GcEvict(g)).core.server == Evict(s.core.server, s.core.collectors[g].deleting.value)
  {
    hide Evict;
  }

  lemma EvictLookup(s: State, x: XorbHash, c: Chunk)
    ensures Lookup(Evict(s, x), c)
         == if Lookup(s, c).Some? && Lookup(s, c).value.xorb == x then None else Lookup(s, c)
  {
  }

  lemma OtherStep(P: Primitives, s: System, e: Event)
    requires MomentOf(s, e) == []
    ensures Step(P, s, e).core.server.chunkIndex == s.core.server.chunkIndex
  {
    hide GroupEnd, TermFor, IndexXorb, CanRegister, Unreferenced;
  }

  /** In every run, with any collections, uploads and registrations racing: each dedup answer is that of a
      plain scan of the xorbs indexed since the chunk was last forgotten. */
  lemma {:induction false} EveryRunAnswers(P: Primitives, es: seq<Event>, c: Chunk)
    requires Lawful(P)
    ensures Lookup(Run(P, es).core.server, c) == Scan(Recent(History(P, es), c), c)
  {
    hide Lawful, Step, Lookup, Scan, Recent, MomentOf, DedupSound, PendingListed;
    if |es| == 0 {
      NothingKnown(c);
    } else {
      var init := es[..|es| - 1];
      EveryRunAnswers(P, init, c);
      EveryRunKeepsDedupSound(P, init);
      AnswerStep(P, Run(P, init), es[|es| - 1], History(P, init), c);
    }
  }

  lemma NothingKnown(c: Chunk)
    ensures Lookup(INITIAL.core.server, c) == Scan(Recent([], c), c)
  {
  }

  lemma {:induction false} ScanSome(order: seq<XorbHash>, c: Chunk)
    ensures Scan(order, c).Some? <==> exists x :: x in order && c in x.chunks
  {
    if |order| > 0 && c !in order[0].chunks {
      ScanSome(order[1..], c);
    }
  }

  /** So at any moment of any run every chunk of every indexed xorb is findable if and only if, for each of
      them, some xorb that holds it was indexed since it was last forgotten. */
  lemma CompletenessInEveryRun(P: Primitives, es: seq<Event>)
    requires Lawful(P)
    ensures var server, history := Run(P, es).core.server, History(P, es);
            DedupComplete(server) <==>
            forall x, i :: x in server.xorbs && 0 <= i < |x.chunks| ==>
              exists y :: y in Recent(history, x.chunks[i]) && x.chunks[i] in y.chunks
  {
    hide Lawful, RunFrom, Scan, Recent, History;
    var server, history := Run(P, es).core.server, History(P, es);
    forall c
      ensures ChunkHash(c) in server.chunkIndex <==> exists y :: y in Recent(history, c) && c in y.chunks
    {
      EveryRunAnswers(P, es, c);
      ScanSome(Recent(history, c), c);
    }
  }
}
