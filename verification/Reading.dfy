/** Reading a file back, as a function of server states: the answer is taken from one state, and
    each term's bytes are fetched from the same or a later one. */
module Reading {
  import opened Basics
  import opened XorbFormat
  import opened ByteRanges
  import opened ServerModel
  import opened Planner
  import opened Xetd

  datatype AgentError =
    | SerializeFailed
    | UploadRefused(status: Status)
    | RegisterRefused(status: Status)
    | QueryRefused(status: Status)
    | NoCoveringEntry
    | DecodeFailed

  // ---- What a read does ----

  /** The first entry whose range contains `[start, end)`. */
  function EntryCovering(entries: seq<FetchInfo>, start: nat, end: nat): Option<FetchInfo> {
    if |entries| == 0 then None
    else if entries[0].start <= start && entries[0].end >= end then Some(entries[0])
    else EntryCovering(entries[1..], start, end)
  }

  /** The entry found in a xorb's own list belongs to the first term that covers `t`. */
  lemma {:induction false} EntryIsFirstCover(xorbs: map<XorbHash, XorbMeta>, terms: seq<Term>, t: Term)
    requires AllTranslatable(xorbs, terms) && FirstCover(terms, t) < |terms|
    ensures EntryCovering(EntriesFor(xorbs, terms, t.xorb), t.start, t.end)
         == Some(ToFetchInfo(xorbs, terms[FirstCover(terms, t)]))
  {
    hide Translatable;
    var rest := terms[1..];
    var entries := EntriesFor(xorbs, terms, t.xorb);
    assert Translatable(xorbs, terms[0]);
    RangeOfEntry(xorbs, terms[0]);
    if terms[0].xorb == t.xorb {
      assert entries[0] == ToFetchInfo(xorbs, terms[0]) && entries[1..] == EntriesFor(xorbs, rest, t.xorb);
    } else {
      assert entries == EntriesFor(xorbs, rest, t.xorb);
    }
    if !Covers(terms[0], t) {
      EntryIsFirstCover(xorbs, rest, t);
    }
  }

  /** The body of one ranged fetch.  A refused fetch has an empty body, which the agent does not
      notice until it decodes. */
  function FetchBody(s: State, entry: FetchInfo): Bytes {
    if entry.url !in s.blobs then [] else
    match ParseRange(Some(RangeHeader(entry.byteStart, entry.byteEnd)), |s.blobs[entry.url]|)
    case None => []
    case Some((first, last)) => GetRange(s.blobs[entry.url], first, last)
  }

  /** The body of a fetch is exactly the bytes of the entry's range. */
  lemma FetchBodyIsRange(s: State, entry: FetchInfo)
    requires entry.url in s.blobs && entry.byteStart <= entry.byteEnd < |s.blobs[entry.url]| <= U64_LIMIT
    ensures FetchBody(s, entry) == s.blobs[entry.url][entry.byteStart..entry.byteEnd + 1]
  {
    hide ParseRange, RangeHeader;
    ParseFormattedRange(entry.byteStart, entry.byteEnd, |s.blobs[entry.url]|);
  }

  function ToBytes(decoded: Option<seq<Chunk>>): Result<Bytes, AgentError> {
    match decoded
    case None => Err(DecodeFailed)
    case Some(cs) => Ok(Flatten(cs))
  }

  function CountOf(t: Term): nat {
    Max(t.end - t.start, 0)
  }

  /** Term `k`, with the entries of the state that answered and the blobs of the state that serves. */
  ghost function ReadTerm(P: Primitives, asked: State, now: State, terms: seq<Term>, k: nat): Result<Bytes, AgentError>
    requires k < |terms|
  {
    match EntryCovering(EntriesFor(asked.xorbs, terms, terms[k].xorb), terms[k].start, terms[k].end)
    case None => Err(NoCoveringEntry)
    case Some(entry) => ToBytes(DecodeRun(P, FetchBody(now, entry), CountOf(terms[k])))
  }

  ghost function ReadUpTo(P: Primitives, s: State, terms: seq<Term>, k: nat): Result<Bytes, AgentError>
    requires k <= |terms|
  {
    if k == 0 then Ok([]) else
    match ReadUpTo(P, s, terms, k - 1)
    case Err(e) => Err(e)
    case Ok(before) =>
      match ReadTerm(P, s, s, terms, k - 1)
      case Err(e) => Err(e)
      case Ok(bytes) => Ok(before + bytes)
  }

  /** A whole read of file `fh` while the server is in state `s`. */
  ghost function ReadBack(P: Primitives, s: State, fh: FileHash): Result<Bytes, AgentError> {
    if fh !in s.files then Err(QueryRefused(NotFound))
    else if !CanRegister(s, s.files[fh].terms) then Err(QueryRefused(InternalServerError))
    else ReadUpTo(P, s, s.files[fh].terms, |s.files[fh].terms|)
  }

  // ---- What it yields on a sound server ----

  /** The fetch of a term's own entry: the header survives, the body decodes to its chunks. */
  lemma EntryFetches(P: Primitives, xorbs: map<XorbHash, XorbMeta>, blob: Bytes, e: Term, n: nat)
    requires Translatable(xorbs, e) && MetaMatches(P, blob, e.xorb, xorbs[e.xorb])
    requires e.start < e.end && e.start + n <= e.end
    ensures var entry := ToFetchInfo(xorbs, e);
            && entry.url == e.xorb
            && ParseRange(Some(RangeHeader(entry.byteStart, entry.byteEnd)), |blob|)
               == Some((entry.byteStart, entry.byteEnd))
            && DecodeRun(P, GetRange(blob, entry.byteStart, entry.byteEnd), n)
               == Some(e.xorb.chunks[e.start..e.start + n])
  {
    hide ParseRange, RangeHeader, DecodeRun, GetRange, UnpackedAgree;
    FetchDecodesRange(P, blob, e.xorb.chunks, xorbs[e.xorb].boundaryOffsets, e.start, e.end, n);
  }

  /** The chosen entry's own term serves as many chunks as the asked-for term has. */
  lemma ShiftedSlice(terms: seq<Term>, k: nat)
    requires k < |terms| && TermsOk(terms)
    ensures var e, t := terms[FirstCover(terms, terms[k])], terms[k];
            && e.start < e.end && e.start + (t.end - t.start) <= e.end <= |e.xorb.chunks| && e.xorb == t.xorb
            && TermChunks(Shifted(terms, t)) == e.xorb.chunks[e.start..e.start + (t.end - t.start)]
  {
    ShiftedInRange(terms, k);
    assert TermOk(terms[k]);
  }

  /** The bytes decoded for the first `k` terms. */
  ghost function DecodedUpTo(terms: seq<Term>, k: nat): Bytes
    requires k <= |terms|
  {
    Flatten(Covered(ShiftedAll(terms)[..k]))
  }

  lemma DecodedStep(terms: seq<Term>, k: nat)
    requires k < |terms|
    ensures DecodedUpTo(terms, k + 1) == DecodedUpTo(terms, k) + Flatten(TermChunks(Shifted(terms, terms[k])))
  {
    hide Covered, Flatten, TermChunks, Shifted;
    var all, u := ShiftedAll(terms), Shifted(terms, terms[k]);
    assert all[..k + 1] == all[..k] + [u];
    CoveredSnoc(all[..k], u);
    FlattenConcat(Covered(all[..k]), TermChunks(u));
  }

  /** What reassembling a term list yields. */
  ghost function Reassembled(terms: seq<Term>): Bytes {
    Flatten(Covered(ShiftedAll(terms)))
  }

  lemma DecodedEnds(terms: seq<Term>)
    ensures DecodedUpTo(terms, 0) == [] && DecodedUpTo(terms, |terms|) == Reassembled(terms)
  {
    assert ShiftedAll(terms)[..|terms|] == ShiftedAll(terms);
  }

  /** The entry chosen for a stored term is itself a stored, described term. */
  lemma StoredCover(P: Primitives, s: State, fh: FileHash, k: nat)
    requires ServerOk(P, s) && fh in s.files && k < |s.files[fh].terms|
    ensures var terms := s.files[fh].terms; var j := FirstCover(terms, terms[k]);
            && TermsOk(terms) && j < |terms| && terms[k].start < terms[k].end
            && terms[j].xorb in s.xorbs && terms[j].xorb in s.blobs
            && MetaMatches(P, s.blobs[terms[j].xorb], terms[j].xorb, s.xorbs[terms[j].xorb])
  {
    hide MetaMatches, TotalLen, Covered, Flatten, TermChunks;
    assert FileStored(P, s, fh);
    var terms := s.files[fh].terms;
    ShiftedInRange(terms, k);
    assert TermOk(terms[k]);
    StoredTerm(P, s, fh, FirstCover(terms, terms[k]));
  }

  lemma ServedRun(P: Primitives, asked: State, now: State, e: Term, n: nat)
    requires Translatable(asked.xorbs, e) && e.start < e.end && e.start + n <= e.end <= |e.xorb.chunks|
    requires e.xorb in now.blobs && MetaMatches(P, now.blobs[e.xorb], e.xorb, asked.xorbs[e.xorb])
    ensures DecodeRun(P, FetchBody(now, ToFetchInfo(asked.xorbs, e)), n) == Some(e.xorb.chunks[e.start..e.start + n])
  {
    hide ParseRange, RangeHeader, DecodeRun, GetRange, MetaMatches, ToFetchInfo;
    EntryFetches(P, asked.xorbs, now.blobs[e.xorb], e, n);
  }

  /** A term read from a later state is right as long as the blob of its chosen entry is the one the
      answer was made for. */
  lemma TermReads(P: Primitives, asked: State, now: State, fh: FileHash, k: nat)
    requires ServerOk(P, asked) && fh in asked.files && k < |asked.files[fh].terms|
    requires var x := asked.files[fh].terms[k].xorb;
             x in now.blobs && x in asked.blobs && now.blobs[x] == asked.blobs[x]
    ensures var terms := asked.files[fh].terms;
            ReadTerm(P, asked, now, terms, k) == Ok(Flatten(TermChunks(Shifted(terms, terms[k]))))
  {
    hide AllTranslatable, NoPanic, CanRegister, ServerOk, EntriesFor, EntryCovering, ToFetchInfo, Flatten,
      TermChunks, Shifted, MetaMatches, TermsOk, DecodeRun, FetchBody;
    var terms := asked.files[fh].terms;
    StoredFileTranslates(P, asked, fh);
    StoredCover(P, asked, fh, k);
    EntryIsFirstCover(asked.xorbs, terms, terms[k]);
    ShiftedSlice(terms, k);
    var e := terms[FirstCover(terms, terms[k])];
    assert Translatable(asked.xorbs, e) by { TranslatableAt(asked.xorbs, terms, FirstCover(terms, terms[k])); }
    ServedRun(P, asked, now, e, CountOf(terms[k]));
  }

  lemma TranslatableAt(xorbs: map<XorbHash, XorbMeta>, terms: seq<Term>, k: nat)
    requires AllTranslatable(xorbs, terms) && k < |terms|
    ensures Translatable(xorbs, terms[k])
  {
  }

  lemma {:induction false} ReadUpToIsDecoded(P: Primitives, s: State, fh: FileHash, k: nat)
    requires ServerOk(P, s) && fh in s.files && k <= |s.files[fh].terms|
    ensures ReadUpTo(P, s, s.files[fh].terms, k) == Ok(DecodedUpTo(s.files[fh].terms, k))
    decreases k
  {
    hide ServerOk, ReadTerm, DecodedUpTo, Flatten, TermChunks, Shifted;
    var terms := s.files[fh].terms;
    DecodedEnds(terms);
    if k > 0 {
      ReadUpToIsDecoded(P, s, fh, k - 1);
      StoredBlob(P, s, fh, k - 1);
      TermReads(P, s, s, fh, k - 1);
      DecodedStep(terms, k - 1);
    }
  }

  lemma StoredBlob(P: Primitives, s: State, fh: FileHash, k: nat)
    requires ServerOk(P, s) && fh in s.files && k < |s.files[fh].terms|
    ensures s.files[fh].terms[k].xorb in s.blobs
  {
    hide OffsetsMatchBlobs, DedupSound, RecordOk;
    assert FileStored(P, s, fh);
  }

  /** On a sound server, reading any registered file goes through and yields exactly the chunk runs at
      the chosen entries' starts. */
  lemma ReadBackIsReassembled(P: Primitives, s: State, fh: FileHash)
    requires ServerOk(P, s) && fh in s.files
    ensures ReadBack(P, s, fh) == Ok(Reassembled(s.files[fh].terms))
  {
    hide ServerOk, ReadUpTo, Reassembled, DecodedUpTo, AllTranslatable, NoPanic, CanRegister;
    StoredFileTranslates(P, s, fh);
    ReadUpToIsDecoded(P, s, fh, |s.files[fh].terms|);
    DecodedEnds(s.files[fh].terms);
  }

  // ---- A blob that is gone ----

  lemma {:induction false} EntryIsOfXorb(
    xorbs: map<XorbHash, XorbMeta>, terms: seq<Term>, x: XorbHash, start: nat, end: nat)
    ensures var found := EntryCovering(EntriesFor(xorbs, terms, x), start, end); found.Some? ==> found.value.url == x
  {
    if |terms| > 0 {
      EntryIsOfXorb(xorbs, terms[1..], x, start, end);
      if terms[0].xorb == x {
        var entries := EntriesFor(xorbs, terms, x);
        assert entries[0] == ToFetchInfo(xorbs, terms[0]) && entries[1..] == EntriesFor(xorbs, terms[1..], x);
      } else {
        assert EntriesFor(xorbs, terms, x) == EntriesFor(xorbs, terms[1..], x);
      }
    }
  }

  /** A term with chunks cannot be read once its blob is gone: the refused fetch has an empty body. */
  lemma MissingBlobFails(P: Primitives, asked: State, now: State, terms: seq<Term>, k: nat)
    requires LawfulDecode(P) && k < |terms| && terms[k].start < terms[k].end && terms[k].xorb !in now.blobs
    ensures ReadTerm(P, asked, now, terms, k).Err?
  {
    hide EntriesFor, EntryCovering;
    EntryIsOfXorb(asked.xorbs, terms, terms[k].xorb, terms[k].start, terms[k].end);
  }

  lemma {:induction false} ReadStops(P: Primitives, s: State, terms: seq<Term>, k: nat, n: nat)
    requires k < n <= |terms| && ReadTerm(P, s, s, terms, k).Err?
    ensures ReadUpTo(P, s, terms, n).Err?
    decreases n
  {
    hide ReadTerm;
    if k < n - 1 {
      ReadStops(P, s, terms, k, n - 1);
    }
  }

  /** So a file with a missing blob does not read back at all. */
  lemma MissingBlobLosesFile(P: Primitives, s: State, fh: FileHash, k: nat)
    requires LawfulDecode(P) && fh in s.files && k < |s.files[fh].terms|
    requires var t := s.files[fh].terms[k]; t.start < t.end && t.xorb !in s.blobs
    ensures ReadBack(P, s, fh).Err?
  {
    hide LawfulDecode, ReadTerm, ReadUpTo, CanRegister;
    var terms := s.files[fh].terms;
    MissingBlobFails(P, s, s, terms, k);
    ReadStops(P, s, terms, k, |terms|);
  }

  // ---- When that is the file ----

  /** Any registered file of a sound server: the decoded chunk list is the file's own if and only if its
      terms are aligned; then the bytes are right, and if the decoded chunks are cut like the file's
      own, only then.  Pairwise distinct chunks are aligned. */
  lemma StoredFileReassembles(P: Primitives, s: State, fh: FileHash)
    requires ServerOk(P, s) && fh in s.files
    ensures var terms := s.files[fh].terms;
            && (Covered(ShiftedAll(terms)) == fh.chunks <==> Aligned(terms))
            && (Aligned(terms) ==> Reassembled(terms) == Flatten(fh.chunks))
            && (SameLengths(Covered(ShiftedAll(terms)), fh.chunks) ==>
                  (Reassembled(terms) == Flatten(fh.chunks) <==> Aligned(terms)))
            && (Distinct(fh.chunks) ==> Aligned(terms))
  {
    hide Covered, Flatten, Distinct, Aligned, ShiftedAll, TermsOk, TotalLen, SameLengths;
    assert FileStored(P, s, fh);
    var terms := s.files[fh].terms;
    ReassemblyExact(terms);
    if Distinct(fh.chunks) {
      DistinctChunksAlign(terms);
    }
    if SameLengths(Covered(ShiftedAll(terms)), fh.chunks) && Reassembled(terms) == Flatten(fh.chunks) {
      FlattenInjective(Covered(ShiftedAll(terms)), fh.chunks);
    }
  }

  lemma TermLengthTelescopes(P: Primitives, blob: Bytes, t: Term, meta: XorbMeta)
    requires TermOk(t) && MetaMatches(P, blob, t.xorb, meta)
    ensures RecordStart(meta.unpackedOffsets, t.start) <= meta.unpackedOffsets[t.end - 1]
    ensures t.unpackedLength == meta.unpackedOffsets[t.end - 1] - RecordStart(meta.unpackedOffsets, t.start)
  {
    hide Encodes, TotalLen;
    UnpackedTelescopes(t.xorb.chunks, meta.unpackedOffsets, t.start, t.end);
  }

  /** Lengths agree everywhere: the client's length of each term is the difference of the server's
      cumulative offsets at its ends, and they sum to the file's size, which is its byte count. */
  lemma StoredFileLengths(P: Primitives, s: State, fh: FileHash)
    requires ServerOk(P, s) && fh in s.files
    ensures var terms := s.files[fh].terms;
            && SumUnpacked(terms) == s.files[fh].totalSize == |Flatten(fh.chunks)|
            && forall k :: 0 <= k < |terms| ==>
                 && terms[k].xorb in s.xorbs
                    && terms[k].start < terms[k].end <= |s.xorbs[terms[k].xorb].unpackedOffsets|
                 && terms[k].unpackedLength
                    == s.xorbs[terms[k].xorb].unpackedOffsets[terms[k].end - 1]
                       - RecordStart(s.xorbs[terms[k].xorb].unpackedOffsets, terms[k].start)
  {
    var terms := s.files[fh].terms;
    assert FileStored(P, s, fh);
    UnpackedSum(terms);
    FlattenLength(fh.chunks);
    hide Flatten, Covered, TermsOk, TotalLen, SumUnpacked, ServerOk, RecordOk, Encodes;
    forall k | 0 <= k < |terms|
      ensures terms[k].xorb in s.xorbs && terms[k].start < terms[k].end <= |s.xorbs[terms[k].xorb].unpackedOffsets|
      ensures terms[k].unpackedLength
              == s.xorbs[terms[k].xorb].unpackedOffsets[terms[k].end - 1]
                 - RecordStart(s.xorbs[terms[k].xorb].unpackedOffsets, terms[k].start)
    {
      StoredTerm(P, s, fh, k);
      TermLengthTelescopes(P, s.blobs[terms[k].xorb], terms[k], s.xorbs[terms[k].xorb]);
    }
  }
}
