/** What the vendored Xet primitives promise to this repository, stated as hypotheses on a record
    of function values.  Hashing, content-defined chunking, xorb serialization and the chunk codec
    are not modelled: `Lawful` is everything the rest of the project assumes about them. */
module XorbFormat {
  import opened Basics

  type Chunk = Bytes

  // Collision-free hashes: a hash value is its preimage.  Executable code in this project only
  // compares hashes; the preimage is read in specifications alone.
  datatype ChunkHash = ChunkHash(content: Chunk)
  datatype XorbHash = XorbHash(chunks: seq<Chunk>)
  datatype FileHash = FileHash(chunks: seq<Chunk>)

  /** The footer of a serialized xorb: for each chunk its hash, the end of its record in the
      serialized bytes, and the cumulative unpacked end. */
  datatype XorbInfo = XorbInfo(
    chunkHashes: seq<ChunkHash>, boundaryOffsets: seq<U32>, unpackedOffsets: seq<U32>)

  datatype Primitives = Primitives(
    chunker: Bytes -> seq<Chunk>,                          // Chunker::next_block(bytes, true)
    serialize: seq<Chunk> -> Option<Bytes>,                // SerializedXorbObject::from_xorb
    validate: (Bytes, XorbHash) -> Option<XorbInfo>,       // XorbObject::validate_xorb_object
    decodeChunk: Bytes -> Option<(Chunk, nat)>)            // deserialize_chunk: data, bytes consumed

  /** Where record `i` begins when `offsets[i]` is where it ends. */
  function RecordStart(offsets: seq<U32>, i: nat): U32
    requires i <= |offsets|
  {
    if i == 0 then 0 else offsets[i - 1]
  }

  /** `record` is one encoding of chunk `c`: decoding it yields `c` and consumes exactly it,
      whatever bytes follow.  A chunk may have several encodings. */
  ghost predicate IsRecord(P: Primitives, record: Bytes, c: Chunk) {
    |record| > 0 && forall rest: Bytes :: P.decodeChunk(record + rest) == Some((c, |record|))
  }

  ghost predicate RecordAt(P: Primitives, blob: Bytes, offsets: seq<U32>, i: nat, c: Chunk)
    requires i < |offsets|
  {
    RecordStart(offsets, i) < offsets[i] <= |blob|
    && IsRecord(P, blob[RecordStart(offsets, i)..offsets[i]], c)
  }

  /** `blob` starts with one record per chunk, ending where `offsets` says; a footer may follow. */
  ghost predicate Encodes(P: Primitives, blob: Bytes, chunks: seq<Chunk>, offsets: seq<U32>) {
    |offsets| == |chunks|
    && forall i :: 0 <= i < |offsets| ==> RecordAt(P, blob, offsets, i, chunks[i])
  }

  ghost predicate UnpackedAgree(chunks: seq<Chunk>, unpacked: seq<U32>) {
    |unpacked| == |chunks|
    && forall i :: 0 <= i < |unpacked| ==> unpacked[i] == TotalLen(chunks[..i + 1])
  }

  /** The footer lists the chunks of `h`: their hashes and cumulative lengths. */
  ghost predicate Lists(h: XorbHash, info: XorbInfo) {
    && |info.chunkHashes| == |h.chunks|
    && (forall i :: 0 <= i < |h.chunks| ==> info.chunkHashes[i] == ChunkHash(h.chunks[i]))
    && UnpackedAgree(h.chunks, info.unpackedOffsets)
  }

  /** The footer `info` describes exactly the bytes `blob` as an encoding of xorb `h`. */
  ghost predicate Describes(P: Primitives, blob: Bytes, h: XorbHash, info: XorbInfo) {
    Lists(h, info) && Encodes(P, blob, h.chunks, info.boundaryOffsets)
  }

  ghost predicate LawfulChunker(P: Primitives) {
    forall b :: Flatten(P.chunker(b)) == b && forall c :: c in P.chunker(b) ==> |c| > 0
  }

  ghost predicate LawfulValidate(P: Primitives) {
    forall blob, h :: P.validate(blob, h).Some? ==> Describes(P, blob, h, P.validate(blob, h).value)
  }

  ghost predicate LawfulSerialize(P: Primitives) {
    forall cs :: P.serialize(cs).Some? ==> P.validate(P.serialize(cs).value, XorbHash(cs)).Some?
  }

  /** Nothing decodes from nothing. */
  ghost predicate LawfulDecode(P: Primitives) {
    P.decodeChunk([]).None?
  }

  ghost predicate Lawful(P: Primitives) {
    LawfulChunker(P) && LawfulValidate(P) && LawfulSerialize(P) && LawfulDecode(P)
  }

  /** What the agent's decode loop produces: `n` chunks decoded one after the other. */
  function DecodeRun(P: Primitives, body: Bytes, n: nat): Option<seq<Chunk>>
    decreases n
  {
    if n == 0 then Some([]) else
    match P.decodeChunk(body)
    case None => None
    case Some((c, used)) =>
      match DecodeRun(P, body[Min(used, |body|)..], n - 1)
      case None => None
      case Some(rest) => Some([c] + rest)
  }

  lemma {:induction false} OffsetsAscend(
    P: Primitives, blob: Bytes, chunks: seq<Chunk>, offsets: seq<U32>, i: nat, j: nat)
    requires Encodes(P, blob, chunks, offsets) && i <= j <= |offsets|
    ensures RecordStart(offsets, i) <= RecordStart(offsets, j) <= |blob|
    ensures i < j ==> RecordStart(offsets, i) < RecordStart(offsets, j)
    decreases j - i
  {
    if i > 0 { assert RecordAt(P, blob, offsets, i - 1, chunks[i - 1]); }
    if i < j {
      assert RecordAt(P, blob, offsets, j - 1, chunks[j - 1]);
      OffsetsAscend(P, blob, chunks, offsets, i, j - 1);
    }
  }

  /** Decoding `n` records from the start of record `lo` yields chunks `lo..lo+n`, for any fetched
      range that reaches at least the end of the last of them. */
  lemma {:induction false} DecodeRunYieldsChunks(
    P: Primitives, blob: Bytes, chunks: seq<Chunk>, offsets: seq<U32>, lo: nat, n: nat, hi: nat)
    requires Encodes(P, blob, chunks, offsets)
    requires lo + n <= |chunks|
    requires RecordStart(offsets, lo + n) <= hi <= |blob|
    requires RecordStart(offsets, lo) <= hi
    ensures DecodeRun(P, blob[RecordStart(offsets, lo)..hi], n) == Some(chunks[lo..lo + n])
    decreases n
  {
    if n > 0 {
      var start, end := RecordStart(offsets, lo), offsets[lo];
      assert RecordAt(P, blob, offsets, lo, chunks[lo]);
      OffsetsAscend(P, blob, chunks, offsets, lo + 1, lo + n);
      var body, record, rest := blob[start..hi], blob[start..end], blob[end..hi];
      assert body == record + rest;
      assert P.decodeChunk(record + rest) == Some((chunks[lo], |record|));
      assert body[|record|..] == rest;
      DecodeRunYieldsChunks(P, blob, chunks, offsets, lo + 1, n - 1, hi);
      assert chunks[lo..lo + n] == [chunks[lo]] + chunks[lo + 1..lo + n];
    }
  }

  /** The server's cumulative unpacked offsets telescope: the difference at the ends of a chunk
      range is the total length of its chunks, and single-chunk differences never underflow. */
  lemma UnpackedTelescopes(chunks: seq<Chunk>, unpacked: seq<U32>, lo: nat, hi: nat)
    requires UnpackedAgree(chunks, unpacked) && lo < hi <= |chunks|
    ensures RecordStart(unpacked, lo) <= unpacked[hi - 1]
    ensures unpacked[hi - 1] - RecordStart(unpacked, lo) == TotalLen(chunks[lo..hi])
  {
    TotalLenSlice(chunks, lo, hi);
  }
}
