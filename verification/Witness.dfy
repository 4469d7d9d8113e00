/** The hypotheses are satisfiable: a one-byte chunker with uncompressed records meets all of them.
    On it, the round trip is shown to fail for a concrete file. */
module Witness {
  import opened Basics
  import opened XorbFormat
  import opened ServerModel
  import opened Planner
  import opened Reading
  import opened Agent
  import opened MountModel
  import opened DedupHistory

  predicate Singles(cs: seq<Chunk>) {
    forall k :: 0 <= k < |cs| ==> |cs[k]| == 1
  }

  function SingleChunks(b: Bytes): seq<Chunk> {
    seq(|b|, k requires 0 <= k < |b| => [b[k]])
  }

  function PackSingles(cs: seq<Chunk>): Option<Bytes> {
    if Singles(cs) && |cs| + 1 < U32_LIMIT then Some(Flatten(cs)) else None
  }

  function SingleInfo(cs: seq<Chunk>): XorbInfo
    requires |cs| + 1 < U32_LIMIT
  {
    var ends := seq(|cs|, k requires 0 <= k < |cs| => (k + 1) as U32);
    XorbInfo(seq(|cs|, k requires 0 <= k < |cs| => ChunkHash(cs[k])), ends, ends)
  }

  function CheckSingles(blob: Bytes, h: XorbHash): Option<XorbInfo> {
    if PackSingles(h.chunks) == Some(blob) then Some(SingleInfo(h.chunks)) else None
  }

  function FirstByte(b: Bytes): Option<(Chunk, nat)> {
    if |b| > 0 then Some(([b[0]], 1)) else None
  }

  const TOY := Primitives(SingleChunks, PackSingles, CheckSingles, FirstByte)

  lemma {:induction false} FlattenSingles(cs: seq<Chunk>)
    requires Singles(cs)
    ensures |Flatten(cs)| == |cs| && TotalLen(cs) == |cs|
    ensures forall k :: 0 <= k < |cs| ==> Flatten(cs)[k] == cs[k][0]
  {
    if |cs| > 0 {
      FlattenSingles(cs[1..]);
      assert forall k :: 1 <= k < |cs| ==> cs[k] == cs[1..][k - 1];
    }
  }

  lemma ToyChunker(b: Bytes)
    ensures Flatten(SingleChunks(b)) == b && Singles(SingleChunks(b))
  {
    FlattenSingles(SingleChunks(b));
  }

  lemma SingleRecord(x: Byte)
    ensures IsRecord(TOY, [x], [x])
  {
    forall rest: Bytes
      ensures TOY.decodeChunk([x] + rest) == Some(([x], 1))
    {
      assert FirstByte([x] + rest) == Some(([x], 1));
    }
  }

  lemma ToyDescribes(h: XorbHash)
    requires Singles(h.chunks) && |h.chunks| + 1 < U32_LIMIT
    ensures Describes(TOY, Flatten(h.chunks), h, SingleInfo(h.chunks))
  {
    var cs, blob, info := h.chunks, Flatten(h.chunks), SingleInfo(h.chunks);
    FlattenSingles(cs);
    forall i | 0 <= i < |cs|
      ensures RecordAt(TOY, blob, info.boundaryOffsets, i, cs[i]) && info.unpackedOffsets[i] == TotalLen(cs[..i + 1])
    {
      FlattenSingles(cs[..i + 1]);
      assert blob[i..i + 1] == cs[i] == [cs[i][0]];
      assert RecordStart(info.boundaryOffsets, i) == i;
      SingleRecord(cs[i][0]);
    }
  }

  /** Every hypothesis of this project holds of the toy primitives. */
  lemma HypothesesSatisfiable()
    ensures Lawful(TOY) && PacksAll(TOY)
  {
    forall b
      ensures Flatten(TOY.chunker(b)) == b && forall c :: c in TOY.chunker(b) ==> |c| > 0
    {
      ToyChunker(b);
    }
    forall blob, h | TOY.validate(blob, h).Some?
      ensures Describes(TOY, blob, h, TOY.validate(blob, h).value)
    {
      ToyDescribes(h);
    }
    forall b, i, j | 0 <= i < j <= |TOY.chunker(b)| && PackableGroup(TOY.chunker(b)[i..j])
      ensures TOY.serialize(TOY.chunker(b)[i..j]).Some?
    {
      ToyChunker(b);
    }
  }

  const ABC: Bytes := [1, 2, 3]
  const ABCB: Bytes := [1, 2, 3, 2]

  lemma OneGroup(chunks: seq<Chunk>, locs: Locs)
    requires |chunks| == |locs| == 3 && Singles(chunks) && locs == [None, None, None]
    ensures GroupEnd(chunks, locs, 0) == 3
  {
    hide GroupEnd;
    GroupEndMaximal(chunks, locs, 0);
    FlattenSingles(chunks);
    assert chunks[0..3] == chunks;
    assert ValidGroup(chunks, locs, 0, 3);
  }

  /** The first ingest uploads one xorb holding the three chunks. */
  lemma FirstUpload()
    ensures var x := XorbHash(SingleChunks(ABC));
            AfterUploads(TOY, EMPTY, ABC) == IndexXorb(PutBlob(EMPTY, x, ABC), x, SingleInfo(x.chunks))
  {
    var chunks := SingleChunks(ABC);
    var x, locs := XorbHash(chunks), IngestLocs(TOY, EMPTY, ABC);
    ToyChunker(ABC);
    assert locs == [None, None, None];
    OneGroup(chunks, locs);
    hide GroupEnd, Flatten, IndexXorb;
    assert chunks[0..3] == chunks;
    assert TOY.chunker(ABC) == chunks && TOY.serialize(chunks) == Some(ABC)
      && TOY.validate(ABC, x) == Some(SingleInfo(chunks));
    var t := UploadGroup(TOY, EMPTY, chunks);
    assert UploadsFrom(TOY, t, chunks, locs, 3) == t;
  }

  lemma FirstIngest(key: CatalogKey)
    ensures var s := Ingested(TOY, EMPTY, ABC, key); var x := XorbHash([[1], [2], [3]]);
            Lookup(s, [1]) == Some(Hit(x, 0)) && Lookup(s, [2]) == Some(Hit(x, 1)) && Lookup(s, [3]) == Some(Hit(x, 2))
  {
    var x := XorbHash(SingleChunks(ABC));
    FirstUpload();
    ToyChunker(ABC);
    ToyDescribes(x);
    hide AfterUploads, IndexXorb, SingleInfo, Encodes, UnpackedAgree;
    assert x.chunks == [[1], [2], [3]];
    var s := PutBlob(EMPTY, x, ABC);
    IndexedLookup(s, x, SingleInfo(x.chunks), [1]);
    IndexedLookup(s, x, SingleInfo(x.chunks), [2]);
    IndexedLookup(s, x, SingleInfo(x.chunks), [3]);
  }

  lemma SecondPlan(s: State)
    requires var x := XorbHash([[1], [2], [3]]);
             Lookup(s, [1]) == Some(Hit(x, 0)) && Lookup(s, [2]) == Some(Hit(x, 1)) && Lookup(s, [3]) == Some(Hit(x, 2))
    ensures Reassembled(IngestRecord(TOY, s, ABCB).terms) == [1, 2, 3, 1]
  {
    hide Lookup, Plan, Covered, ShiftedAll, Flatten;
    var x := XorbHash([[1], [2], [3]]);
    assert TOY.chunker(ABCB) == [[1], [2], [3], [2]];
    assert IngestLocs(TOY, s, ABCB) == [Some(Hit(x, 0)), Some(Hit(x, 1)), Some(Hit(x, 2)), Some(Hit(x, 1))];
    RepeatedChunkBreaksReassembly([1], [2], [3]);
    var decoded: seq<Chunk> := [[1], [2], [3], [1]];
    FlattenSingles(decoded);
    assert Flatten(decoded) == [1, 2, 3, 1];
  }

  lemma EmptyIsReady()
    ensures ServerReady(TOY, EMPTY)
  {
  }

  lemma ReadyReads(s: State, bytes: Bytes, key: CatalogKey)
    requires ServerReady(TOY, Ingested(TOY, s, bytes, key))
    ensures ReadBack(TOY, Ingested(TOY, s, bytes, key), FileHash(TOY.chunker(bytes)))
         == Ok(Reassembled(IngestRecord(TOY, s, bytes).terms))
  {
    hide ReadBack, Reassembled, IngestRecord, AfterUploads, ServerOk;
    ReadBackIsReassembled(TOY, Ingested(TOY, s, bytes, key), FileHash(TOY.chunker(bytes)));
  }

  /** Storing 1 2 3 and then the file 1 2 3 2 on an empty server: both ingests succeed, and reading
      the second file back gives 1 2 3 1. */
  lemma RoundTripFailsForRepeatedChunk(key: CatalogKey)
    ensures var s := Ingested(TOY, EMPTY, ABC, key);
            && CanIngest(TOY, EMPTY, ABC) && CanIngest(TOY, s, ABCB)
            && ReadBack(TOY, Ingested(TOY, s, ABCB, key), FileHash(TOY.chunker(ABCB))) == Ok([1, 2, 3, 1]) != Ok(ABCB)
  {
    hide Lawful, PacksAll, CanIngest, Ingested, ServerReady, Lookup, Reassembled, IngestRecord, ReadBack;
    HypothesesSatisfiable();
    EmptyIsReady();
    ReadyIngest(TOY, EMPTY, ABC, key);
    var s := Ingested(TOY, EMPTY, ABC, key);
    ReadyIngest(TOY, s, ABCB, key);
    FirstIngest(key);
    SecondPlan(s);
    ReadyReads(s, ABCB, key);
    assert ABCB[3] == 2;
  }
}
