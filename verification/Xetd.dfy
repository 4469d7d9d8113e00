/** The server's request handlers over its mutable index and blob store. */
module Xetd {
  import opened Basics
  import opened XorbFormat
  import opened ByteRanges
  import opened ServerModel

  datatype Status = BadRequest | NotFound | RangeNotSatisfiable | InternalServerError

  datatype ReconTerm = ReconTerm(hash: XorbHash, unpackedLength: nat, start: nat, end: nat)

  /** One fetchable range of one xorb; the URL names the xorb. */
  datatype FetchInfo = FetchInfo(start: nat, end: nat, url: XorbHash, byteStart: nat, byteEnd: nat)

  datatype ReconResponse = ReconResponse(
    offsetIntoFirstRange: nat, terms: seq<ReconTerm>, fetchInfo: map<XorbHash, seq<FetchInfo>>)

  function ToReconTerm(t: Term): ReconTerm {
    ReconTerm(t.xorb, t.unpackedLength, t.start, t.end)
  }

  /** The chunk range's byte offsets can be looked up without an index or an offset going out of
      range; beyond these bounds the handler panics. */
  ghost predicate InBounds(meta: XorbMeta, t: Term) {
    0 < t.end <= |meta.boundaryOffsets| && t.start <= |meta.boundaryOffsets| && 0 < meta.boundaryOffsets[t.end - 1]
  }

  ghost predicate Translatable(xorbs: map<XorbHash, XorbMeta>, t: Term) {
    t.xorb in xorbs && InBounds(xorbs[t.xorb], t)
  }

  ghost predicate AllTranslatable(xorbs: map<XorbHash, XorbMeta>, terms: seq<Term>) {
    forall k :: 0 <= k < |terms| ==> Translatable(xorbs, terms[k])
  }

  /** No indexed term goes out of bounds; a xorb missing from the index is an error answer. */
  ghost predicate NoPanic(xorbs: map<XorbHash, XorbMeta>, terms: seq<Term>) {
    forall k :: 0 <= k < |terms| && terms[k].xorb in xorbs ==> InBounds(xorbs[terms[k].xorb], terms[k])
  }

  /** Translation of a term's chunk range to an inclusive byte range. */
  ghost function ToFetchInfo(xorbs: map<XorbHash, XorbMeta>, t: Term): FetchInfo {
    if !Translatable(xorbs, t) then FetchInfo(0, 0, t.xorb, 0, 0) else
    var offsets := xorbs[t.xorb].boundaryOffsets;
    FetchInfo(t.start, t.end, t.xorb, RecordStart(offsets, t.start), offsets[t.end - 1] - 1)
  }

  /** The `fetch_info` entries of xorb `x`, in term order. */
  ghost function EntriesFor(xorbs: map<XorbHash, XorbMeta>, terms: seq<Term>, x: XorbHash): seq<FetchInfo> {
    if |terms| == 0 then [] else
    (if terms[0].xorb == x then [ToFetchInfo(xorbs, terms[0])] else []) + EntriesFor(xorbs, terms[1..], x)
  }

  lemma {:induction false} EntriesForSnoc(xorbs: map<XorbHash, XorbMeta>, terms: seq<Term>, t: Term, x: XorbHash)
    ensures EntriesFor(xorbs, terms + [t], x)
         == EntriesFor(xorbs, terms, x) + (if t.xorb == x then [ToFetchInfo(xorbs, t)] else [])
  {
    if |terms| > 0 {
      EntriesForSnoc(xorbs, terms[1..], t, x);
      assert (terms + [t])[1..] == terms[1..] + [t];
    }
  }

  /** Every entry list built so far is the right one for the first `k` terms. */
  ghost predicate EntriesUpTo(
    xorbs: map<XorbHash, XorbMeta>, terms: seq<Term>, k: nat, fetchInfo: map<XorbHash, seq<FetchInfo>>)
    requires k <= |terms|
  {
    && (forall i :: 0 <= i < k ==> terms[i].xorb in fetchInfo)
    && (forall x :: x in fetchInfo ==> exists i :: 0 <= i < k && terms[i].xorb == x)
    && (forall x :: EntriesFor(xorbs, terms[..k], x) == if x in fetchInfo then fetchInfo[x] else [])
  }

  lemma NoEntries(xorbs: map<XorbHash, XorbMeta>, terms: seq<Term>)
    ensures EntriesUpTo(xorbs, terms, 0, map[])
  {
  }

  lemma EntriesExtend(
    xorbs: map<XorbHash, XorbMeta>, terms: seq<Term>, k: nat, fetchInfo: map<XorbHash, seq<FetchInfo>>)
    requires k < |terms| && EntriesUpTo(xorbs, terms, k, fetchInfo)
    ensures var x := terms[k].xorb;
            var entries := (if x in fetchInfo then fetchInfo[x] else []) + [ToFetchInfo(xorbs, terms[k])];
            EntriesUpTo(xorbs, terms, k + 1, fetchInfo[x := entries])
  {
    hide ToFetchInfo, EntriesFor;
    assert terms[..k + 1] == terms[..k] + [terms[k]];
    forall x {
      EntriesForSnoc(xorbs, terms[..k], terms[k], x);
    }
    forall x | x in fetchInfo || x == terms[k].xorb
      ensures exists i :: 0 <= i < k + 1 && terms[i].xorb == x
    {
      if x == terms[k].xorb {
        assert terms[k].xorb == x;
      } else {
        var i :| 0 <= i < k && terms[i].xorb == x;
        assert 0 <= i < k + 1;
      }
    }
  }

  /** A complete reconstruction answer for a term list. */
  ghost predicate Answers(xorbs: map<XorbHash, XorbMeta>, terms: seq<Term>, r: ReconResponse) {
    && r.offsetIntoFirstRange == 0
    && |r.terms| == |terms| && (forall k :: 0 <= k < |terms| ==> r.terms[k] == ToReconTerm(terms[k]))
    && EntriesUpTo(xorbs, terms, |terms|, r.fetchInfo)
  }

  lemma MatchedTermTranslates(P: Primitives, xorbs: map<XorbHash, XorbMeta>, blob: Bytes, t: Term)
    requires t.xorb in xorbs && MetaMatches(P, blob, t.xorb, xorbs[t.xorb])
    requires t.start < t.end <= |t.xorb.chunks|
    ensures Translatable(xorbs, t)
  {
    assert RecordAt(P, blob, xorbs[t.xorb].boundaryOffsets, t.end - 1, t.xorb.chunks[t.end - 1]);
  }

  /** Terms of a stored file: their byte ranges can be computed. */
  lemma StoredFileTranslates(P: Primitives, s: State, fh: FileHash)
    requires ServerOk(P, s) && fh in s.files
    ensures AllTranslatable(s.xorbs, s.files[fh].terms)
    ensures NoPanic(s.xorbs, s.files[fh].terms) && CanRegister(s, s.files[fh].terms)
  {
    forall k | 0 <= k < |s.files[fh].terms|
      ensures Translatable(s.xorbs, s.files[fh].terms[k])
    {
      StoredTerm(P, s, fh, k);
      var t := s.files[fh].terms[k];
      MatchedTermTranslates(P, s.xorbs, s.blobs[t.xorb], t);
    }
  }

  // ---- What an answer means, without the translation ----

  /** A term of the answer covers at least one chunk of its xorb and gives their total length. */
  ghost predicate TermAnswer(t: ReconTerm) {
    t.start < t.end <= |t.hash.chunks| && t.unpackedLength == TotalLen(t.hash.chunks[t.start..t.end])
  }

  /** The chunks the answered terms name, in order. */
  function Spelled(terms: seq<ReconTerm>): seq<Chunk> {
    if |terms| == 0 then [] else
    var t := terms[|terms| - 1];
    Spelled(terms[..|terms| - 1]) + if t.start <= t.end <= |t.hash.chunks| then t.hash.chunks[t.start..t.end] else []
  }

  function SumLengths(terms: seq<ReconTerm>): nat {
    if |terms| == 0 then 0 else SumLengths(terms[..|terms| - 1]) + terms[|terms| - 1].unpackedLength
  }

  /** The chunk ranges the answer's terms have on `x`, in order. */
  function RangesOn(terms: seq<ReconTerm>, x: XorbHash): seq<(nat, nat)> {
    if |terms| == 0 then [] else
    var t := terms[|terms| - 1];
    RangesOn(terms[..|terms| - 1], x) + if t.hash == x then [(t.start, t.end)] else []
  }

  function RangesIn(entries: seq<FetchInfo>): seq<(nat, nat)> {
    seq(|entries|, i requires 0 <= i < |entries| => (entries[i].start, entries[i].end))
  }

  /** An entry's inclusive byte range reads exactly the records of its chunk range, no byte more. */
  ghost predicate EntryAnswer(s: State, x: XorbHash, e: FetchInfo) {
    && e.url == x && x in s.xorbs && x in s.blobs && e.start < e.end <= |s.xorbs[x].boundaryOffsets|
    && var offsets, blob := s.xorbs[x].boundaryOffsets, s.blobs[x];
       && RecordStart(offsets, e.start) == e.byteStart < RecordStart(offsets, e.end) == e.byteEnd + 1 <= |blob|
       && GetRange(blob, e.byteStart, e.byteEnd) == blob[RecordStart(offsets, e.start)..RecordStart(offsets, e.end)]
  }

  /** The answer for a file of a sound server. */
  ghost predicate SoundAnswer(s: State, fh: FileHash, r: ReconResponse)
    requires fh in s.files
  {
    && r.offsetIntoFirstRange == 0 && Spelled(r.terms) == fh.chunks
    && (forall k :: 0 <= k < |r.terms| ==> TermAnswer(r.terms[k]) && r.terms[k].hash in r.fetchInfo)
    && SumLengths(r.terms) == s.files[fh].totalSize == |Flatten(fh.chunks)|
    && (forall x :: x in r.fetchInfo ==> |r.fetchInfo[x]| > 0 && RangesIn(r.fetchInfo[x]) == RangesOn(r.terms, x))
    && (forall x, i :: x in r.fetchInfo && 0 <= i < |r.fetchInfo[x]| ==> EntryAnswer(s, x, r.fetchInfo[x][i]))
  }

  lemma {:induction false} AnsweredTerms(terms: seq<Term>, answered: seq<ReconTerm>)
    requires |answered| == |terms| && TermsOk(terms)
    requires forall k :: 0 <= k < |terms| ==> answered[k] == ToReconTerm(terms[k])
    ensures Spelled(answered) == Covered(terms) && SumLengths(answered) == TotalLen(Covered(terms))
  {
    if |terms| > 0 {
      var n := |terms| - 1;
      AnsweredTerms(terms[..n], answered[..n]);
      assert TermOk(terms[n]);
      TotalLenConcat(Covered(terms[..n]), TermChunks(terms[n]));
    }
  }

  lemma {:induction false} AnsweredRanges(
    xorbs: map<XorbHash, XorbMeta>, terms: seq<Term>, answered: seq<ReconTerm>, x: XorbHash)
    requires |answered| == |terms| && AllTranslatable(xorbs, terms)
    requires forall k :: 0 <= k < |terms| ==> answered[k] == ToReconTerm(terms[k])
    ensures RangesIn(EntriesFor(xorbs, terms, x)) == RangesOn(answered, x)
  {
    hide Translatable;
    if |terms| > 0 {
      var n := |terms| - 1;
      AnsweredRanges(xorbs, terms[..n], answered[..n], x);
      assert terms == terms[..n] + [terms[n]];
      EntriesForSnoc(xorbs, terms[..n], terms[n], x);
      assert Translatable(xorbs, terms[n]);
      RangeOfEntry(xorbs, terms[n]);
    }
  }

  lemma RangeOfEntry(xorbs: map<XorbHash, XorbMeta>, t: Term)
    requires Translatable(xorbs, t)
    ensures var e := ToFetchInfo(xorbs, t); (e.start, e.end) == (t.start, t.end) && e.url == t.xorb
  {
  }

  lemma {:induction false} EntryOfTerm(xorbs: map<XorbHash, XorbMeta>, terms: seq<Term>, x: XorbHash, i: nat)
    returns (k: nat)
    requires i < |EntriesFor(xorbs, terms, x)|
    ensures k < |terms| && terms[k].xorb == x && EntriesFor(xorbs, terms, x)[i] == ToFetchInfo(xorbs, terms[k])
  {
    hide ToFetchInfo;
    if terms[0].xorb == x && i == 0 {
      k := 0;
    } else {
      var j := EntryOfTerm(xorbs, terms[1..], x, if terms[0].xorb == x then i - 1 else i);
      k := j + 1;
    }
  }

  lemma TermEntryAnswers(P: Primitives, s: State, fh: FileHash, k: nat)
    requires ServerOk(P, s) && fh in s.files && k < |s.files[fh].terms|
    ensures var t := s.files[fh].terms[k]; EntryAnswer(s, t.xorb, ToFetchInfo(s.xorbs, t))
  {
    hide ServerOk, RecordAt, TotalLen;
    StoredTerm(P, s, fh, k);
    var t := s.files[fh].terms[k];
    MatchedTermTranslates(P, s.xorbs, s.blobs[t.xorb], t);
    RangeReadsRecords(P, s.blobs[t.xorb], t.xorb.chunks, s.xorbs[t.xorb].boundaryOffsets, t.start, t.end);
  }

  lemma AnswerIsSound(P: Primitives, s: State, fh: FileHash, r: ReconResponse)
    requires ServerOk(P, s) && fh in s.files && Answers(s.xorbs, s.files[fh].terms, r)
    ensures SoundAnswer(s, fh, r)
  {
    hide ServerOk, EntriesFor, ToFetchInfo, Covered, Flatten, TotalLen, Spelled, SumLengths, RangesOn, EntryAnswer;
    var terms := s.files[fh].terms;
    assert terms[..|terms|] == terms;
    FileMeans(P, s, fh);
    AnsweredTerms(terms, r.terms);
    StoredFileTranslates(P, s, fh);
    hide AllTranslatable, NoPanic;
    forall k | 0 <= k < |r.terms|
      ensures TermAnswer(r.terms[k])
    {
      assert TermOk(terms[k]);
    }
    forall x | x in r.fetchInfo
      ensures |r.fetchInfo[x]| > 0 && RangesIn(r.fetchInfo[x]) == RangesOn(r.terms, x)
    {
      AnsweredRanges(s.xorbs, terms, r.terms, x);
      var k :| 0 <= k < |terms| && terms[k].xorb == x;
      EntriesNotEmpty(s.xorbs, terms, x, k);
    }
    forall x, i | x in r.fetchInfo && 0 <= i < |r.fetchInfo[x]|
      ensures EntryAnswer(s, x, r.fetchInfo[x][i])
    {
      var k := EntryOfTerm(s.xorbs, terms, x, i);
      TermEntryAnswers(P, s, fh, k);
    }
  }

  lemma FileMeans(P: Primitives, s: State, fh: FileHash)
    requires ServerOk(P, s) && fh in s.files
    ensures TermsOk(s.files[fh].terms) && Covered(s.files[fh].terms) == fh.chunks
    ensures s.files[fh].totalSize == TotalLen(fh.chunks) == |Flatten(fh.chunks)|
  {
    assert FileStored(P, s, fh);
    FlattenLength(fh.chunks);
  }

  lemma {:induction false} EntriesNotEmpty(xorbs: map<XorbHash, XorbMeta>, terms: seq<Term>, x: XorbHash, k: nat)
    requires k < |terms| && terms[k].xorb == x
    ensures |EntriesFor(xorbs, terms, x)| > 0
  {
    hide ToFetchInfo;
    if k > 0 {
      EntriesNotEmpty(xorbs, terms[1..], x, k - 1);
    }
  }

  class Server {
    const P: Primitives
    var xorbs: map<XorbHash, XorbMeta>
    var files: map<FileHash, FileRecord>
    var catalog: map<CatalogKey, FileHash>
    var chunkIndex: map<ChunkHash, ChunkLoc>
    var blobs: map<XorbHash, Bytes>

    ghost function View(): State
      reads this
    {
      State(xorbs, files, catalog, chunkIndex, blobs)
    }

    /** No sweep is half done, and everything registered can be served. */
    ghost predicate Valid()
      reads this
    {
      Lawful(P) && ServerOk(P, View()) && xorbs.Keys <= blobs.Keys
    }

    constructor (P: Primitives)
      requires Lawful(P)
      ensures Valid() && View() == EMPTY && this.P == P
    {
      this.P := P;
      xorbs, files, catalog, chunkIndex, blobs := map[], map[], map[], map[], map[];
    }

    /** `BlobStore::put`: true exactly when the key was new. */
    method PutBlob(h: XorbHash, body: Bytes) returns (inserted: bool)
      modifies this`blobs
      ensures inserted == (h !in old(blobs))
      ensures View() == ServerModel.PutBlob(old(View()), h, body)
    {
      inserted := h !in blobs;
      if inserted {
        blobs := blobs[h := body];
      }
    }

    method IndexPutXorb(h: XorbHash, info: XorbInfo)
      modifies this`xorbs
      ensures xorbs == if h in old(xorbs) then old(xorbs) else old(xorbs)[h := MetaOf(info)]
    {
      if h !in xorbs {
        xorbs := xorbs[h := XorbMeta(|info.chunkHashes|, info.boundaryOffsets, info.unpackedOffsets)];
      }
    }

    /** The per-chunk lengths are differences of cumulative offsets and never underflow. */
    method IndexChunks(h: XorbHash, info: XorbInfo)
      requires Lists(h, info)
      modifies this`chunkIndex
      ensures chunkIndex == ServerModel.IndexChunks(old(chunkIndex), h, info, |info.chunkHashes|)
    {
      var prevEnd: U32 := 0;
      for i := 0 to |info.chunkHashes|
        invariant prevEnd == RecordStart(info.unpackedOffsets, i)
        invariant chunkIndex == ServerModel.IndexChunks(old(chunkIndex), h, info, i)
      {
        var end := info.unpackedOffsets[i];
        UnpackedTelescopes(h.chunks, info.unpackedOffsets, i, i + 1);
        var unpackedLen: U32 := end - prevEnd;
        prevEnd := end;
        var c := info.chunkHashes[i];
        if c !in chunkIndex {
          chunkIndex := chunkIndex[c := ChunkLoc(h, i, unpackedLen)];
        }
      }
    }

    /** Upload of a serialized xorb: gate, blob write, and the index step only for a new blob. */
    method PutXorb(h: XorbHash, body: Bytes) returns (r: Result<bool, Status>)
      requires LawfulValidate(P)
      modifies this
      ensures P.validate(body, h).None? ==> r == Err(BadRequest) && View() == old(View())
      ensures P.validate(body, h).Some? ==>
        var info := P.validate(body, h).value;
        Lists(h, info) && r == Ok(h !in old(blobs)) && View() == Upload(old(View()), h, body, info)
      ensures r.Ok? ==> blobs == if r.value then old(blobs)[h := body] else old(blobs)
      ensures r == Ok(false) ==> xorbs == old(xorbs) && chunkIndex == old(chunkIndex)
      ensures r == Ok(true) ==>
        var info := P.validate(body, h).value;
        && xorbs == (if h in old(xorbs) then old(xorbs)
                     else old(xorbs)[h := XorbMeta(|h.chunks|, info.boundaryOffsets, info.unpackedOffsets)])
        && (forall c :: c in old(chunkIndex) ==> c in chunkIndex && chunkIndex[c] == old(chunkIndex)[c])
        && (forall c :: c in chunkIndex <==> c in old(chunkIndex) || c in info.chunkHashes)
      ensures files == old(files) && catalog == old(catalog)
    {
      var checked := P.validate(body, h);
      if checked.None? {
        return Err(BadRequest);
      }
      var info := checked.value;
      assert Lists(h, info) by { assert Describes(P, body, h, info); }
      var inserted := PutBlob(h, body);
      if inserted {
        IndexPutXorb(h, info);
        IndexChunksFirst(chunkIndex, h, info, |info.chunkHashes|);
        assert info.chunkHashes[..|info.chunkHashes|] == info.chunkHashes;
        IndexChunks(h, info);
      }
      r := Ok(inserted);
    }

    /** Registration is all or nothing, and refused exactly when some xorb is not indexed. */
    method RegisterFile(fh: FileHash, totalSize: nat, terms: seq<Term>, volume: Option<string>, path: Option<string>)
      returns (r: Result<nat, Status>)
      modifies this`files, this`catalog
      ensures r.Ok? <==> CanRegister(old(View()), terms)
      ensures r.Err? ==> r == Err(BadRequest) && View() == old(View())
      ensures r.Ok? ==> r.value == (if fh in old(files) then 0 else 1)
      ensures r.Ok? ==> View() == Register(old(View()), fh, FileRecord(totalSize, terms),
        if volume.Some? && path.Some? then Some((volume.value, path.value)) else None)
      ensures r.Ok? ==> files == old(files)[fh := FileRecord(totalSize, terms)]
      ensures r.Ok? && volume.Some? && path.Some? ==> catalog == old(catalog)[(volume.value, path.value) := fh]
      ensures r.Ok? && (volume.None? || path.None?) ==> catalog == old(catalog)
    {
      var accepted: seq<Term> := [];
      for k := 0 to |terms|
        invariant accepted == terms[..k]
        invariant forall t :: t in terms[..k] ==> t.xorb in xorbs
        invariant View() == old(View())
      {
        if terms[k].xorb !in xorbs {
          assert terms[k] in terms;
          return Err(BadRequest);
        }
        accepted := accepted + [terms[k]];
      }
      assert terms[..|terms|] == terms;
      r := Ok(if fh in files then 0 else 1);
      files := files[fh := FileRecord(totalSize, accepted)];
      if volume.Some? && path.Some? {
        catalog := catalog[(volume.value, path.value) := fh];
      }
    }

    /** Global dedup lookup. */
    method GlobalDedup(c: ChunkHash) returns (hit: Option<ChunkLoc>)
      ensures hit == if c in chunkIndex then Some(chunkIndex[c]) else None
    {
      hit := if c in chunkIndex then Some(chunkIndex[c]) else None;
    }

    /** Terms and ranged fetch entries of a registered file. */
    method Reconstruct(fh: FileHash) returns (r: Result<ReconResponse, Status>)
      requires fh in files ==> NoPanic(xorbs, files[fh].terms)
      ensures fh !in files ==> r == Err(NotFound)
      ensures fh in files && CanRegister(View(), files[fh].terms) ==> r.Ok? && Answers(xorbs, files[fh].terms, r.value)
      ensures fh in files && !CanRegister(View(), files[fh].terms) ==> r == Err(InternalServerError)
      ensures fh in files && ServerOk(P, View()) ==> r.Ok? && SoundAnswer(View(), fh, r.value)
    {
      hide EntriesUpTo, ToFetchInfo, NoPanic, InBounds, CanRegister, ServerOk, SoundAnswer;
      if fh !in files {
        return Err(NotFound);
      }
      var fileTerms := files[fh].terms;
      if ServerOk(P, View()) { StoredFileTranslates(P, View(), fh); }
      var resolved := CollectRanges(fh);
      if resolved.Err? {
        return Err(resolved.error);
      }
      var collected := resolved.value;
      NoEntries(xorbs, fileTerms);
      var terms: seq<ReconTerm> := [];
      var fetchInfo: map<XorbHash, seq<FetchInfo>> := map[];
      for k := 0 to |fileTerms|
        invariant |terms| == k && forall i :: 0 <= i < k ==> terms[i] == ToReconTerm(fileTerms[i])
        invariant EntriesUpTo(xorbs, fileTerms, k, fetchInfo)
      {
        EntriesExtend(xorbs, fileTerms, k, fetchInfo);
        var x := fileTerms[k].xorb;
        terms := terms + [ToReconTerm(fileTerms[k])];
        fetchInfo := fetchInfo[x := (if x in fetchInfo then fetchInfo[x] else []) + [collected[k]]];
      }
      r := Ok(ReconResponse(0, terms, fetchInfo));
      if ServerOk(P, View()) { AnswerIsSound(P, View(), fh, r.value); }
    }

    /** The pass under the index lock: every array access and subtraction is in range, and a xorb
        that is not indexed ends it with an error. */
    method CollectRanges(fh: FileHash) returns (r: Result<seq<FetchInfo>, Status>)
      requires fh in files && NoPanic(xorbs, files[fh].terms)
      ensures r.Ok? <==> CanRegister(View(), files[fh].terms)
      ensures r.Err? ==> r.error == InternalServerError
      ensures r.Ok? ==> |r.value| == |files[fh].terms|
      ensures r.Ok? ==> forall i :: 0 <= i < |r.value| ==> r.value[i] == ToFetchInfo(xorbs, files[fh].terms[i])
      ensures r.Ok? && ServerOk(P, View()) ==>
        forall i :: 0 <= i < |r.value| ==>
          && EntryAnswer(View(), files[fh].terms[i].xorb, r.value[i])
          && (r.value[i].start, r.value[i].end) == (files[fh].terms[i].start, files[fh].terms[i].end)
    {
      hide ServerOk, EntryAnswer;
      var collected: seq<FetchInfo> := [];
      for k := 0 to |files[fh].terms|
        invariant |collected| == k
        invariant forall i :: 0 <= i < k ==>
          files[fh].terms[i].xorb in xorbs && collected[i] == ToFetchInfo(xorbs, files[fh].terms[i])
      {
        var t := files[fh].terms[k];
        if t.xorb !in xorbs {
          assert t in files[fh].terms;
          return Err(InternalServerError);
        }
        assert InBounds(xorbs[t.xorb], t);
        var offsets := xorbs[t.xorb].boundaryOffsets;
        var byteStart := if t.start == 0 then 0 else offsets[t.start - 1];
        var byteEnd := offsets[t.end - 1] - 1;
        collected := collected + [FetchInfo(t.start, t.end, t.xorb, byteStart, byteEnd)];
      }
      if ServerOk(P, View()) {
        forall i | 0 <= i < |collected|
          ensures EntryAnswer(View(), files[fh].terms[i].xorb, collected[i])
        {
          TermEntryAnswers(P, View(), fh, i);
        }
      }
      r := Ok(collected);
    }

    /** Ranged read of stored xorb bytes. */
    method XorbData(h: XorbHash, header: Option<string>) returns (r: Result<Bytes, Status>)
      ensures h !in blobs ==> r == Err(NotFound)
      ensures h in blobs && ParseRange(header, |blobs[h]|).None? ==> r == Err(RangeNotSatisfiable)
      ensures h in blobs && ParseRange(header, |blobs[h]|).Some? ==>
        var (first, last) := ParseRange(header, |blobs[h]|).value; r == Ok(GetRange(blobs[h], first, last))
    {
      if h !in blobs {
        return Err(NotFound);
      }
      match ParseRange(header, |blobs[h]|) {
        case None => r := Err(RangeNotSatisfiable);
        case Some((first, last)) => r := Ok(GetRange(blobs[h], first, last));
      }
    }

    /** The mark phase: every xorb some registered file refers to. */
    method Mark() returns (referenced: set<XorbHash>)
      ensures referenced == Referenced(files)
    {
      referenced := {};
      var todo := files.Keys;
      while todo != {}
        invariant todo <= files.Keys
        invariant referenced == Referenced(files - todo)
        decreases todo
      {
        var fh :| fh in todo;
        ghost var before := referenced;
        var terms := files[fh].terms;
        for k := 0 to |terms|
          invariant referenced == before + set t | t in terms[..k] :: t.xorb
        {
          assert terms[..k + 1] == terms[..k] + [terms[k]];
          referenced := referenced + {terms[k].xorb};
        }
        assert terms[..|terms|] == terms;
        ReferencedOneMore(files, todo, fh);
        todo := todo - {fh};
      }
      assert files - {} == files;
    }

    /** One sweep: blob delete, then the locked eviction. */
    method SweepOne(x: XorbHash)
      modifies this`blobs, this`xorbs, this`chunkIndex
      ensures View() == Evict(DeleteBlob(old(View()), x), x)
    {
      blobs := blobs - {x};
      xorbs := xorbs - {x};
      chunkIndex := map c | c in chunkIndex && chunkIndex[c].xorb != x :: chunkIndex[c];
    }

    /** The sweep phase over all xorbs indexed at mark time. */
    method SweepUnmarked(referenced: set<XorbHash>) returns (swept: nat)
      modifies this
      ensures View() == Sweep(old(View()), old(xorbs).Keys - referenced)
      ensures swept == |old(xorbs).Keys - referenced|
    {
      hide Sweep, Evict, DeleteBlob;
      ghost var start := View();
      ghost var dead: set<XorbHash> := {};
      var todo := xorbs.Keys;
      swept := 0;
      SweepNothing(start);
      while todo != {}
        invariant dead <= start.xorbs.Keys && dead !! todo && dead !! referenced
        invariant forall x :: x in start.xorbs && x !in referenced ==> x in dead || x in todo
        invariant todo <= start.xorbs.Keys
        invariant swept == |dead|
        invariant View() == Sweep(start, dead)
        decreases todo
      {
        var x :| x in todo;
        todo := todo - {x};
        if x !in referenced {
          SweepStep(start, dead, x);
          SweepOne(x);
          dead := dead + {x};
          swept := swept + 1;
        }
      }
      assert dead == start.xorbs.Keys - referenced;
    }

    /** Mark and sweep without interleaving: exactly the unreferenced xorbs go, from index, blob
        store and dedup index; nothing else changes; the answer is their number. */
    method Gc() returns (swept: nat)
      modifies this
      ensures View() == Sweep(old(View()), Unreferenced(old(View())))
      ensures swept == |Unreferenced(old(View()))|
      ensures old(Valid()) ==> Valid()
      ensures Unreferenced(View()) == {}
      ensures files == old(files) && catalog == old(catalog)
      ensures xorbs == map x | x in old(xorbs) && Names(files, x) :: old(xorbs)[x]
      ensures blobs == map x | x in old(blobs) && (x in old(xorbs) ==> Names(files, x)) :: old(blobs)[x]
      ensures var was := old(chunkIndex);
        chunkIndex == map c | c in was && (was[c].xorb in old(xorbs) ==> Names(files, was[c].xorb)) :: was[c]
      ensures swept == |old(xorbs)| - |xorbs|
    {
      var referenced := Mark();
      swept := SweepUnmarked(referenced);
      if old(Valid()) {
        SweepKeepsOk(P, old(View()), Unreferenced(old(View())));
      }
      SweepMeans(old(View()));
    }

    /** Re-read and re-validate one indexed xorb. */
    method IsDamaged(x: XorbHash) returns (bad: bool)
      requires x in xorbs
      ensures bad <==> x !in blobs || P.validate(blobs[x], x).None?
      ensures bad <==> x in Damaged(P, View())
    {
      if x !in blobs {
        return true;
      }
      WholeBlob(blobs[x]);
      var bytes := GetRange(blobs[x], 0, Max(|blobs[x]| - 1, 0));
      bad := P.validate(bytes, x).None?;
    }

    /** Check every indexed xorb; the counts are of all of them and of those whose blob is gone or no
        longer validates. */
    method Scrub() returns (checked: nat, quarantined: nat)
      ensures checked == |xorbs|
      ensures quarantined == |set x | x in xorbs && (x !in blobs || P.validate(blobs[x], x).None?)|
      ensures quarantined == |Damaged(P, View())|
    {
      hide Damaged;
      checked, quarantined := 0, 0;
      var todo := xorbs.Keys;
      ghost var damaged := Damaged(P, View());
      assert damaged - todo == {} by { DamagedIndexed(P, View()); }
      while todo != {}
        invariant todo <= xorbs.Keys && checked == |xorbs.Keys| - |todo| && quarantined == |damaged - todo|
        decreases todo
      {
        var x :| x in todo;
        var bad := IsDamaged(x);
        RemoveOne(damaged, todo, x);
        checked, quarantined := checked + 1, if bad then quarantined + 1 else quarantined;
        todo := todo - {x};
      }
      assert damaged - todo == damaged;
      assert |xorbs.Keys| == |xorbs|;
      DamagedMeans(P, View());
    }

    /** A stored blob goes bad on disk: the next scrub counts one more. */
    method ScrubSeesDamage(x: XorbHash, bad: Bytes) returns (before: nat, after: nat)
      requires x in xorbs && x in blobs && P.validate(blobs[x], x).Some? && P.validate(bad, x).None?
      modifies this`blobs
      ensures blobs == old(blobs)[x := bad] && after == before + 1
    {
      hide Damaged;
      var checked;
      checked, before := Scrub();
      DamageCounts(P, View(), x, bad);
      blobs := blobs[x := bad];
      checked, after := Scrub();
    }
  }

  /** Some registered file has a term on `x`. */
  ghost predicate Names(files: map<FileHash, FileRecord>, x: XorbHash) {
    exists fh, k :: fh in files && 0 <= k < |files[fh].terms| && files[fh].terms[k].xorb == x
  }

  lemma NamesMeans(files: map<FileHash, FileRecord>, x: XorbHash)
    ensures Names(files, x) <==> x in Referenced(files)
  {
    if x in Referenced(files) {
      var fh, t :| fh in files && t in files[fh].terms && t.xorb == x;
      var k :| 0 <= k < |files[fh].terms| && files[fh].terms[k] == t;
      assert files[fh].terms[k].xorb == x;
    }
    if Names(files, x) {
      var fh, k :| fh in files && 0 <= k < |files[fh].terms| && files[fh].terms[k].xorb == x;
      assert files[fh].terms[k] in files[fh].terms;
    }
  }

  /** What a whole collection leaves, entry by entry. */
  lemma SweepMeans(s: State)
    ensures var t := Sweep(s, Unreferenced(s));
            && t.files == s.files && t.catalog == s.catalog
            && t.xorbs == (map x | x in s.xorbs && Names(s.files, x) :: s.xorbs[x])
            && t.blobs == (map x | x in s.blobs && (x in s.xorbs ==> Names(s.files, x)) :: s.blobs[x])
            && t.chunkIndex == (map c | c in s.chunkIndex
                 && (s.chunkIndex[c].xorb in s.xorbs ==> Names(s.files, s.chunkIndex[c].xorb)) :: s.chunkIndex[c])
            && |Unreferenced(s)| == |s.xorbs| - |t.xorbs|
  {
    hide Names, Unreferenced;
    var dead := Unreferenced(s);
    DeadMeans(s);
    XorbsLeft(s.xorbs, s.files, dead);
    BlobsLeft(s, dead);
    EntriesLeft(s, dead);
    SizeWithout(s.xorbs.Keys, dead);
    assert (s.xorbs - dead).Keys == s.xorbs.Keys - dead;
    assert |(s.xorbs - dead).Keys| == |s.xorbs - dead| && |s.xorbs.Keys| == |s.xorbs|;
  }

  /** `dead` is exactly what is indexed and named by no file. */
  ghost predicate Dead(s: State, dead: set<XorbHash>) {
    forall x :: x in dead <==> x in s.xorbs && !Names(s.files, x)
  }

  lemma DeadMeans(s: State)
    ensures Dead(s, Unreferenced(s)) && Unreferenced(s) <= s.xorbs.Keys
  {
    hide Referenced, Names;
    forall x
      ensures x in Unreferenced(s) <==> x in s.xorbs && !Names(s.files, x)
    {
      NamesMeans(s.files, x);
    }
  }

  lemma XorbsLeft(xorbs: map<XorbHash, XorbMeta>, files: map<FileHash, FileRecord>, dead: set<XorbHash>)
    requires forall x :: x in dead <==> x in xorbs && !Names(files, x)
    ensures xorbs - dead == map x | x in xorbs && Names(files, x) :: xorbs[x]
  {
    hide Names;
  }

  lemma BlobsLeft(s: State, dead: set<XorbHash>)
    requires Dead(s, dead)
    ensures s.blobs - dead == map x | x in s.blobs && (x in s.xorbs ==> Names(s.files, x)) :: s.blobs[x]
  {
    hide Names;
  }

  lemma EntriesLeft(s: State, dead: set<XorbHash>)
    requires Dead(s, dead)
    ensures (map c | c in s.chunkIndex && s.chunkIndex[c].xorb !in dead :: s.chunkIndex[c])
         == map c | c in s.chunkIndex
              && (s.chunkIndex[c].xorb in s.xorbs ==> Names(s.files, s.chunkIndex[c].xorb)) :: s.chunkIndex[c]
  {
    hide Names;
  }

  lemma SizeWithout<T>(a: set<T>, b: set<T>)
    requires b <= a
    ensures |a - b| == |a| - |b|
  {
    assert a == (a - b) + b;
  }

  lemma DamagedMeans(P: Primitives, s: State)
    ensures Damaged(P, s) == set x | x in s.xorbs && (x !in s.blobs || P.validate(s.blobs[x], x).None?)
  {
  }

  /** Corrupting one sound blob damages exactly that xorb. */
  lemma DamageCounts(P: Primitives, s: State, x: XorbHash, bad: Bytes)
    requires x in s.xorbs && x in s.blobs && P.validate(s.blobs[x], x).Some? && P.validate(bad, x).None?
    ensures var t := s.(blobs := s.blobs[x := bad]);
            x !in Damaged(P, s) && Damaged(P, t) == Damaged(P, s) + {x} && |Damaged(P, t)| == |Damaged(P, s)| + 1
  {
    var t := s.(blobs := s.blobs[x := bad]);
    assert Damaged(P, t) == Damaged(P, s) + {x};
  }

  lemma DamagedIndexed(P: Primitives, s: State)
    ensures Damaged(P, s) <= s.xorbs.Keys
  {
  }

  lemma RemoveOne<T>(marked: set<T>, todo: set<T>, x: T)
    requires x in todo
    ensures |todo - {x}| == |todo| - 1
    ensures |marked - (todo - {x})| == |marked - todo| + if x in marked then 1 else 0
  {
    if x in marked {
      assert marked - (todo - {x}) == (marked - todo) + {x};
    } else {
      assert marked - (todo - {x}) == marked - todo;
    }
  }

  lemma WholeBlob(data: Bytes)
    ensures GetRange(data, 0, Max(|data| - 1, 0)) == data
  {
  }

  lemma ReferencedOneMore(files: map<FileHash, FileRecord>, todo: set<FileHash>, fh: FileHash)
    requires fh in todo && fh in files
    ensures Referenced(files - (todo - {fh}))
         == Referenced(files - todo) + set t | t in files[fh].terms :: t.xorb
  {
    var a, b := files - todo, files - (todo - {fh});
    forall x | x in Referenced(b)
      ensures x in Referenced(a) || x in set t | t in files[fh].terms :: t.xorb
    {
      var g, t :| g in b && t in b[g].terms && t.xorb == x;
      assert g != fh ==> g in a && t in a[g].terms;
    }
    forall x | x in Referenced(a)
      ensures x in Referenced(b)
    {
      var g, t :| g in a && t in a[g].terms && t.xorb == x;
      assert g in b && t in b[g].terms;
    }
    forall t | t in files[fh].terms
      ensures t.xorb in Referenced(b)
    {
      assert fh in b && t in b[fh].terms;
    }
  }
}
