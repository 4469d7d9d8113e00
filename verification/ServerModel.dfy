/** The server's state as a value: the index maps of state.rs plus the blob map of blob.rs, the
    atomic steps each request is made of, and the invariants that tie the two together. */
module ServerModel {
  import opened Basics
  import opened XorbFormat

  datatype XorbMeta = XorbMeta(numChunks: nat, boundaryOffsets: seq<U32>, unpackedOffsets: seq<U32>)

  /** Chunks `[start, end)` of one xorb. */
  datatype Term = Term(xorb: XorbHash, start: nat, end: nat, unpackedLength: nat)

  datatype FileRecord = FileRecord(totalSize: nat, terms: seq<Term>)

  datatype ChunkLoc = ChunkLoc(xorb: XorbHash, index: nat, unpackedLen: int)

  type CatalogKey = (string, string)

  datatype State = State(
    xorbs: map<XorbHash, XorbMeta>,
    files: map<FileHash, FileRecord>,
    catalog: map<CatalogKey, FileHash>,
    chunkIndex: map<ChunkHash, ChunkLoc>,
    blobs: map<XorbHash, Bytes>)

  const EMPTY := State(map[], map[], map[], map[], map[])

  // ---- Atomic steps ----

  /** Idempotent write: an existing key keeps its bytes. */
  function PutBlob(s: State, h: XorbHash, body: Bytes): State {
    if h in s.blobs then s else s.(blobs := s.blobs[h := body])
  }

  function DeleteBlob(s: State, h: XorbHash): State {
    s.(blobs := s.blobs - {h})
  }

  function MetaOf(info: XorbInfo): XorbMeta {
    XorbMeta(|info.chunkHashes|, info.boundaryOffsets, info.unpackedOffsets)
  }

  /** The first `n` chunks of `h` entered into the dedup index; an existing entry is kept. */
  function IndexChunks(index: map<ChunkHash, ChunkLoc>, h: XorbHash, info: XorbInfo, n: nat): map<ChunkHash, ChunkLoc>
    requires n <= |info.chunkHashes| && n <= |info.unpackedOffsets|
  {
    if n == 0 then index else
    var before := IndexChunks(index, h, info, n - 1);
    var c := info.chunkHashes[n - 1];
    if c in before then before
    else before[c := ChunkLoc(h, n - 1, info.unpackedOffsets[n - 1] - RecordStart(info.unpackedOffsets, n - 1))]
  }

  /** The locked index step of an upload: `Index::put_xorb` then `Index::index_chunks`. */
  function IndexXorb(s: State, h: XorbHash, info: XorbInfo): State
    requires |info.chunkHashes| == |info.unpackedOffsets|
  {
    s.(xorbs := if h in s.xorbs then s.xorbs else s.xorbs[h := MetaOf(info)],
       chunkIndex := IndexChunks(s.chunkIndex, h, info, |info.chunkHashes|))
  }

  predicate CanRegister(s: State, terms: seq<Term>) {
    forall t :: t in terms ==> t.xorb in s.xorbs
  }

  function Register(s: State, fh: FileHash, record: FileRecord, key: Option<CatalogKey>): State {
    s.(files := s.files[fh := record],
       catalog := if key.Some? then s.catalog[key.value := fh] else s.catalog)
  }

  /** The locked part of one sweep: forget the xorb and every dedup entry pointing into it. */
  function Evict(s: State, x: XorbHash): State {
    s.(xorbs := s.xorbs - {x},
       chunkIndex := map c | c in s.chunkIndex && s.chunkIndex[c].xorb != x :: s.chunkIndex[c])
  }

  ghost function Referenced(files: map<FileHash, FileRecord>): set<XorbHash> {
    set fh, t | fh in files && t in files[fh].terms :: t.xorb
  }

  // ---- Terms ----

  function TermChunks(t: Term): seq<Chunk> {
    if t.start <= t.end <= |t.xorb.chunks| then t.xorb.chunks[t.start..t.end] else []
  }

  /** Position `i` is the first one in its xorb that holds its chunk. */
  ghost predicate FirstAt(x: XorbHash, i: nat)
    requires i < |x.chunks|
  {
    x.chunks[i] !in x.chunks[..i]
  }

  /** A term as an agent makes it: non-empty, in bounds, of the right length, and beginning at the
      first occurrence of its first chunk. */
  ghost predicate TermOk(t: Term) {
    && t.start < t.end <= |t.xorb.chunks| && FirstAt(t.xorb, t.start)
    && t.unpackedLength == TotalLen(TermChunks(t))
  }

  ghost predicate TermsOk(terms: seq<Term>) {
    forall k :: 0 <= k < |terms| ==> TermOk(terms[k])
  }

  /** The chunk list a term list stands for. */
  function Covered(terms: seq<Term>): seq<Chunk> {
    if |terms| == 0 then [] else Covered(terms[..|terms| - 1]) + TermChunks(terms[|terms| - 1])
  }

  lemma CoveredSnoc(terms: seq<Term>, t: Term)
    ensures Covered(terms + [t]) == Covered(terms) + TermChunks(t)
  {
    assert (terms + [t])[..|terms|] == terms;
  }

  // ---- Invariants ----

  /** The index entry describes exactly these stored bytes. */
  ghost predicate MetaMatches(P: Primitives, blob: Bytes, h: XorbHash, meta: XorbMeta) {
    && meta.numChunks == |h.chunks|
    && Encodes(P, blob, h.chunks, meta.boundaryOffsets)
    && UnpackedAgree(h.chunks, meta.unpackedOffsets)
  }

  ghost predicate OffsetsMatchBlobs(P: Primitives, s: State) {
    forall x :: x in s.xorbs && x in s.blobs ==> MetaMatches(P, s.blobs[x], x, s.xorbs[x])
  }

  /** A record an agent registered: it spells out the chunk list its hash stands for, which is
      what the chunker makes of the file's bytes. */
  ghost predicate RecordOk(P: Primitives, fh: FileHash, record: FileRecord) {
    && TermsOk(record.terms)
    && Covered(record.terms) == fh.chunks
    && record.totalSize == TotalLen(fh.chunks)
    && P.chunker(Flatten(fh.chunks)) == fh.chunks
  }

  ghost predicate FileStored(P: Primitives, s: State, fh: FileHash)
    requires fh in s.files
  {
    && RecordOk(P, fh, s.files[fh])
    && forall k :: 0 <= k < |s.files[fh].terms| ==>
         s.files[fh].terms[k].xorb in s.xorbs && s.files[fh].terms[k].xorb in s.blobs
  }

  ghost predicate FilesStored(P: Primitives, s: State) {
    forall fh :: fh in s.files ==> FileStored(P, s, fh)
  }

  ghost predicate LocSound(xorbs: map<XorbHash, XorbMeta>, c: ChunkHash, loc: ChunkLoc) {
    && loc.xorb in xorbs
    && loc.index < |loc.xorb.chunks|
    && ChunkHash(loc.xorb.chunks[loc.index]) == c
    && FirstAt(loc.xorb, loc.index)
    && loc.unpackedLen == |c.content|
  }

  /** Every dedup entry points at an indexed xorb, at the first chunk there with that hash, and
      carries its length. */
  ghost predicate DedupSound(s: State) {
    forall c :: c in s.chunkIndex ==> LocSound(s.xorbs, c, s.chunkIndex[c])
  }

  /** Every chunk of every indexed xorb can be found. */
  ghost predicate DedupComplete(s: State) {
    forall x, i :: x in s.xorbs && 0 <= i < |x.chunks| ==> ChunkHash(x.chunks[i]) in s.chunkIndex
  }

  ghost predicate ServerOk(P: Primitives, s: State) {
    OffsetsMatchBlobs(P, s) && FilesStored(P, s) && DedupSound(s)
  }

  // ---- Lemmas about the steps ----

  /** Any term of any registered file: in range, indexed, stored, and described by its entry. */
  lemma StoredTerm(P: Primitives, s: State, fh: FileHash, k: nat)
    requires ServerOk(P, s) && fh in s.files && k < |s.files[fh].terms|
    ensures var t := s.files[fh].terms[k];
            && TermOk(t) && t.xorb in s.xorbs && t.xorb in s.blobs
            && MetaMatches(P, s.blobs[t.xorb], t.xorb, s.xorbs[t.xorb])
  {
    assert FileStored(P, s, fh);
    assert TermOk(s.files[fh].terms[k]);
  }

  /** `index_chunks` keeps old entries and enters every other hash at its first position. */
  lemma {:induction false} IndexChunksFirst(index: map<ChunkHash, ChunkLoc>, h: XorbHash, info: XorbInfo, n: nat)
    requires n <= |info.chunkHashes| == |info.unpackedOffsets|
    ensures var r := IndexChunks(index, h, info, n);
            forall c :: (c in r <==> c in index || c in info.chunkHashes[..n])
    ensures var r := IndexChunks(index, h, info, n);
            forall c :: c in index ==> r[c] == index[c]
    ensures var r := IndexChunks(index, h, info, n);
            forall c :: c in r && c !in index ==>
              && r[c].xorb == h && r[c].index < n && info.chunkHashes[r[c].index] == c
              && c !in info.chunkHashes[..r[c].index]
              && r[c].unpackedLen == info.unpackedOffsets[r[c].index] - RecordStart(info.unpackedOffsets, r[c].index)
  {
    if n > 0 {
      IndexChunksFirst(index, h, info, n - 1);
      assert info.chunkHashes[..n] == info.chunkHashes[..n - 1] + [info.chunkHashes[n - 1]];
    }
  }

  lemma IndexXorbSound(s: State, h: XorbHash, info: XorbInfo)
    requires DedupSound(s) && Lists(h, info)
    ensures DedupSound(IndexXorb(s, h, info))
  {
    var s' := IndexXorb(s, h, info);
    IndexChunksFirst(s.chunkIndex, h, info, |info.chunkHashes|);
    hide IndexChunks, TotalLen;
    forall c | c in s'.chunkIndex
      ensures LocSound(s'.xorbs, c, s'.chunkIndex[c])
    {
      if c in s.chunkIndex {
        assert LocSound(s.xorbs, c, s.chunkIndex[c]);
      } else {
        var i := s'.chunkIndex[c].index;
        ChunkLength(h, info, i);
        ListedFirst(h, info, i);
      }
    }
  }

  lemma ListedFirst(h: XorbHash, info: XorbInfo, i: nat)
    requires Lists(h, info) && i < |h.chunks| && info.chunkHashes[i] !in info.chunkHashes[..i]
    ensures FirstAt(h, i)
  {
    forall q | 0 <= q < i
      ensures h.chunks[q] != h.chunks[i]
    {
      assert info.chunkHashes[..i][q] == ChunkHash(h.chunks[q]);
    }
  }

  /** The length entered for chunk `i` is its own length. */
  lemma ChunkLength(h: XorbHash, info: XorbInfo, i: nat)
    requires Lists(h, info) && i < |h.chunks|
    ensures info.unpackedOffsets[i] - RecordStart(info.unpackedOffsets, i) == |h.chunks[i]|
  {
    UnpackedTelescopes(h.chunks, info.unpackedOffsets, i, i + 1);
    assert h.chunks[i..i + 1] == [h.chunks[i]];
    assert TotalLen([h.chunks[i]][1..]) == 0;
  }

  lemma IndexXorbComplete(s: State, h: XorbHash, info: XorbInfo)
    requires DedupComplete(s) && Lists(h, info)
    ensures DedupComplete(IndexXorb(s, h, info))
  {
    var s' := IndexXorb(s, h, info);
    IndexChunksFirst(s.chunkIndex, h, info, |info.chunkHashes|);
    forall x, i | x in s'.xorbs && 0 <= i < |x.chunks|
      ensures ChunkHash(x.chunks[i]) in s'.chunkIndex
    {
      if x == h { assert info.chunkHashes[i] == ChunkHash(h.chunks[i]); }
    }
  }

  lemma EvictSound(s: State, x: XorbHash)
    requires DedupSound(s)
    ensures DedupSound(Evict(s, x))
  {
    var s' := Evict(s, x);
    forall c | c in s'.chunkIndex
      ensures LocSound(s'.xorbs, c, s'.chunkIndex[c])
    {
      assert LocSound(s.xorbs, c, s.chunkIndex[c]);
    }
  }

  /** A whole upload without interleaving: the blob write, then the index step if it was new. */
  function Upload(s: State, h: XorbHash, body: Bytes, info: XorbInfo): State
    requires |info.chunkHashes| == |info.unpackedOffsets|
  {
    var t := PutBlob(s, h, body);
    if h in s.blobs then t else IndexXorb(t, h, info)
  }

  lemma UploadKeepsOk(P: Primitives, s: State, h: XorbHash, body: Bytes, info: XorbInfo)
    requires ServerOk(P, s) && s.xorbs.Keys <= s.blobs.Keys && Describes(P, body, h, info)
    ensures var s' := Upload(s, h, body, info); ServerOk(P, s') && s'.xorbs.Keys <= s'.blobs.Keys
  {
    var s' := Upload(s, h, body, info);
    if h !in s.blobs {
      IndexXorbSound(PutBlob(s, h, body), h, info);
      forall x | x in s'.xorbs && x in s'.blobs
        ensures MetaMatches(P, s'.blobs[x], x, s'.xorbs[x])
      {
        if x != h { assert MetaMatches(P, s.blobs[x], x, s.xorbs[x]); }
      }
      forall fh | fh in s'.files
        ensures FileStored(P, s', fh)
      {
        assert FileStored(P, s, fh);
      }
    }
  }

  lemma RegisterKeepsOk(P: Primitives, s: State, fh: FileHash, record: FileRecord, key: Option<CatalogKey>)
    requires ServerOk(P, s) && RecordOk(P, fh, record) && CanRegister(s, record.terms)
    requires forall t :: t in record.terms ==> t.xorb in s.blobs
    ensures ServerOk(P, Register(s, fh, record, key))
  {
    var s' := Register(s, fh, record, key);
    forall g | g in s'.files
      ensures FileStored(P, s', g)
    {
      if g != fh { assert FileStored(P, s, g); }
    }
  }

  // ---- Mark and sweep ----

  /** Indexed xorbs whose blob is gone or no longer validates. */
  ghost function Damaged(P: Primitives, s: State): set<XorbHash> {
    set x | x in s.xorbs && !(x in s.blobs && P.validate(s.blobs[x], x).Some?)
  }

  ghost function Unreferenced(s: State): set<XorbHash> {
    s.xorbs.Keys - Referenced(s.files)
  }

  /** The state once every xorb in `dead` has been deleted and evicted. */
  ghost function Sweep(s: State, dead: set<XorbHash>): State {
    s.(xorbs := s.xorbs - dead,
       blobs := s.blobs - dead,
       chunkIndex := map c | c in s.chunkIndex && s.chunkIndex[c].xorb !in dead :: s.chunkIndex[c])
  }

  lemma SweepNothing(s: State)
    ensures Sweep(s, {}) == s
  {
    assert s.xorbs - {} == s.xorbs && s.blobs - {} == s.blobs;
    assert Sweep(s, {}).chunkIndex == s.chunkIndex;
  }

  lemma SweepStep(s: State, dead: set<XorbHash>, x: XorbHash)
    ensures Evict(DeleteBlob(Sweep(s, dead), x), x) == Sweep(s, dead + {x})
  {
    var a, b := Evict(DeleteBlob(Sweep(s, dead), x), x), Sweep(s, dead + {x});
    assert a.xorbs == b.xorbs;
    assert a.blobs == b.blobs;
    assert a.chunkIndex == b.chunkIndex;
  }

  /** Sweeping xorbs no file references keeps every file servable and the index sound. */
  lemma SweepKeepsOk(P: Primitives, s: State, dead: set<XorbHash>)
    requires ServerOk(P, s) && dead !! Referenced(s.files)
    ensures ServerOk(P, Sweep(s, dead))
    ensures s.xorbs.Keys <= s.blobs.Keys ==> Sweep(s, dead).xorbs.Keys <= Sweep(s, dead).blobs.Keys
  {
    var s' := Sweep(s, dead);
    forall x | x in s'.xorbs && x in s'.blobs
      ensures MetaMatches(P, s'.blobs[x], x, s'.xorbs[x])
    {
      assert MetaMatches(P, s.blobs[x], x, s.xorbs[x]);
    }
    forall fh | fh in s'.files
      ensures FileStored(P, s', fh)
    {
      assert FileStored(P, s, fh);
      forall k | 0 <= k < |s.files[fh].terms|
        ensures s.files[fh].terms[k].xorb !in dead
      {
        assert s.files[fh].terms[k] in s.files[fh].terms;
        assert s.files[fh].terms[k].xorb in Referenced(s.files);
      }
    }
    forall c | c in s'.chunkIndex
      ensures LocSound(s'.xorbs, c, s'.chunkIndex[c])
    {
      assert LocSound(s.xorbs, c, s.chunkIndex[c]);
    }
  }
}
