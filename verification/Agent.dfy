/** The client: chunk, deduplicate, upload and register a file; fetch and reassemble one. */
module Agent {
  import opened Basics
  import opened XorbFormat
  import opened ByteRanges
  import opened ServerModel
  import opened Planner
  import opened Xetd
  import opened Reading

  // ---- Specification of an ingest without interleaving ----

  function Lookup(s: State, c: Chunk): Option<Hit> {
    var h := ChunkHash(c);
    if h in s.chunkIndex then Some(Hit(s.chunkIndex[h].xorb, s.chunkIndex[h].index)) else None
  }

  function LookupAll(s: State, chunks: seq<Chunk>): Locs {
    seq(|chunks|, k requires 0 <= k < |chunks| => Lookup(s, chunks[k]))
  }

  /** Every novel group from `i` on can be packed. */
  predicate Packable(P: Primitives, chunks: seq<Chunk>, locs: Locs, i: nat)
    requires i <= |locs| == |chunks|
    decreases |locs| - i
  {
    i == |locs| ||
    var j := GroupEnd(chunks, locs, i);
    (locs[i].None? ==> P.serialize(chunks[i..j]).Some?) && Packable(P, chunks, locs, j)
  }

  /** Packing and uploading one novel group. */
  ghost function UploadGroup(P: Primitives, s: State, group: seq<Chunk>): State
    requires P.serialize(group).Some?
  {
    var body := P.serialize(group).value;
    var info := P.validate(body, XorbHash(group));
    if info.Some? && |info.value.chunkHashes| == |info.value.unpackedOffsets|
    then Upload(s, XorbHash(group), body, info.value) else s
  }

  /** The uploads of the groups from `i` on, up to the first that cannot be packed. */
  ghost function UploadsFrom(P: Primitives, s: State, chunks: seq<Chunk>, locs: Locs, i: nat): State
    requires i <= |locs| == |chunks|
    decreases |locs| - i
  {
    if i == |locs| then s else
    var j := GroupEnd(chunks, locs, i);
    if locs[i].Some? then UploadsFrom(P, s, chunks, locs, j)
    else if P.serialize(chunks[i..j]).None? then s
    else UploadsFrom(P, UploadGroup(P, s, chunks[i..j]), chunks, locs, j)
  }

  /** `t` differs from `s` only by more blobs, xorbs and dedup entries. */
  ghost predicate Extends(s: State, t: State) {
    && t.files == s.files && t.catalog == s.catalog
    && (forall x :: x in s.blobs ==> x in t.blobs && t.blobs[x] == s.blobs[x])
    && (forall x :: x in s.xorbs ==> x in t.xorbs && t.xorbs[x] == s.xorbs[x])
    && (forall c :: c in s.chunkIndex ==> c in t.chunkIndex && t.chunkIndex[c] == s.chunkIndex[c])
  }

  ghost predicate Healthy(P: Primitives, s: State) {
    ServerOk(P, s) && s.xorbs.Keys <= s.blobs.Keys
  }

  lemma LookupAllSound(s: State, chunks: seq<Chunk>)
    requires DedupSound(s)
    ensures LocsSound(chunks, LookupAll(s, chunks))
    ensures forall k :: 0 <= k < |chunks| && LookupAll(s, chunks)[k].Some? ==>
      LookupAll(s, chunks)[k].value.xorb in s.xorbs
  {
    var locs := LookupAll(s, chunks);
    forall k | 0 <= k < |chunks| && locs[k].Some?
      ensures locs[k].value.xorb in s.xorbs && HitSound(chunks[k], locs[k].value)
    {
      var h := ChunkHash(chunks[k]);
      assert LocSound(s.xorbs, h, s.chunkIndex[h]);
    }
  }

  lemma UploadGroupInfo(P: Primitives, group: seq<Chunk>) returns (body: Bytes, info: XorbInfo)
    requires Lawful(P) && P.serialize(group).Some?
    ensures body == P.serialize(group).value && P.validate(body, XorbHash(group)) == Some(info)
    ensures Describes(P, body, XorbHash(group), info)
  {
    body := P.serialize(group).value;
    info := P.validate(body, XorbHash(group)).value;
  }

  lemma UploadExtends(s: State, x: XorbHash, body: Bytes, info: XorbInfo)
    requires Lists(x, info) && s.xorbs.Keys <= s.blobs.Keys && |info.chunkHashes| == |info.unpackedOffsets|
    ensures var t := Upload(s, x, body, info);
            && Extends(s, t)
            && t.blobs.Keys == s.blobs.Keys + {x}
            && t.xorbs.Keys == s.xorbs.Keys + (if x in s.blobs then {} else {x})
            && (DedupComplete(s) ==> DedupComplete(t))
  {
    hide Lists, DedupComplete, ServerModel.IndexChunks;
    if x !in s.blobs {
      IndexChunksGrows(s.chunkIndex, x, info);
      if DedupComplete(s) {
        UploadComplete(s, x, body, info);
      }
    }
  }

  lemma IndexChunksGrows(index: map<ChunkHash, ChunkLoc>, x: XorbHash, info: XorbInfo)
    requires |info.chunkHashes| == |info.unpackedOffsets|
    ensures var r := ServerModel.IndexChunks(index, x, info, |info.chunkHashes|);
            forall c :: c in index ==> c in r && r[c] == index[c]
  {
    IndexChunksFirst(index, x, info, |info.chunkHashes|);
  }

  lemma UploadComplete(s: State, x: XorbHash, body: Bytes, info: XorbInfo)
    requires DedupComplete(s) && Lists(x, info) && x !in s.blobs
    ensures DedupComplete(Upload(s, x, body, info))
  {
    hide IndexXorb;
    IndexXorbComplete(PutBlob(s, x, body), x, info);
  }

  /** One upload: the server stays healthy, only grows, and gains exactly this xorb. */
  lemma UploadGroupEffect(P: Primitives, s: State, group: seq<Chunk>)
    requires Lawful(P) && Healthy(P, s) && P.serialize(group).Some?
    ensures var t := UploadGroup(P, s, group); var x := XorbHash(group);
            && Healthy(P, t) && Extends(s, t)
            && t.blobs.Keys == s.blobs.Keys + {x}
            && t.xorbs.Keys == s.xorbs.Keys + (if x in s.blobs then {} else {x})
            && (DedupComplete(s) ==> DedupComplete(t))
  {
    hide Lawful, ServerOk, Encodes, Extends, DedupComplete, Upload;
    var x := XorbHash(group);
    var body, info := UploadGroupInfo(P, group);
    UploadKeepsOk(P, s, x, body, info);
    UploadExtends(s, x, body, info);
  }

  lemma ExtendsTransitive(s: State, t: State, u: State)
    requires Extends(s, t) && Extends(t, u)
    ensures Extends(s, u)
  {
  }

  /** What all the uploads of an ingest do. */
  lemma {:induction false} UploadsEffect(P: Primitives, s: State, chunks: seq<Chunk>, locs: Locs, i: nat)
    requires i <= |locs| == |chunks| && Lawful(P) && Healthy(P, s)
    ensures var t := UploadsFrom(P, s, chunks, locs, i);
            Healthy(P, t) && Extends(s, t) && (DedupComplete(s) ==> DedupComplete(t))
    ensures Packable(P, chunks, locs, i) ==>
            var t, novel := UploadsFrom(P, s, chunks, locs, i), NovelXorbs(chunks, locs, i);
            t.blobs.Keys == s.blobs.Keys + novel && t.xorbs.Keys == s.xorbs.Keys + (novel - s.blobs.Keys)
    decreases |locs| - i
  {
    hide Healthy, Lawful, DedupComplete, UploadGroup, GroupEnd, Extends;
    if i < |locs| {
      var j := GroupEnd(chunks, locs, i);
      if locs[i].Some? {
        UploadsEffect(P, s, chunks, locs, j);
      } else if P.serialize(chunks[i..j]).Some? {
        UploadGroupEffect(P, s, chunks[i..j]);
        var t := UploadGroup(P, s, chunks[i..j]);
        UploadsEffect(P, t, chunks, locs, j);
        ExtendsTransitive(s, t, UploadsFrom(P, t, chunks, locs, j));
      } else {
        ExtendsReflexive(s);
      }
    } else {
      ExtendsReflexive(s);
    }
  }

  lemma ExtendsReflexive(s: State)
    ensures Extends(s, s)
  {
  }

  /** The walk from `i` comes to a group that starts at `bad`. */
  predicate Reaches(chunks: seq<Chunk>, locs: Locs, i: nat, bad: nat)
    requires i <= |locs| == |chunks|
    decreases |locs| - i
  {
    i == bad || (i < |locs| && Reaches(chunks, locs, GroupEnd(chunks, locs, i), bad))
  }

  /** A run of chunks that ends by `bad`. */
  ghost predicate RunBefore(chunks: seq<Chunk>, bad: nat, x: XorbHash) {
    exists a, b :: 0 <= a < b <= bad && b <= |chunks| && x == XorbHash(chunks[a..b])
  }

  lemma {:induction false} ReachesForward(chunks: seq<Chunk>, locs: Locs, i: nat, bad: nat)
    requires i <= |locs| == |chunks| && Reaches(chunks, locs, i, bad)
    ensures i <= bad
    decreases |locs| - i
  {
    hide GroupEnd;
    if i != bad { ReachesForward(chunks, locs, GroupEnd(chunks, locs, i), bad); }
  }

  /** An ingest that meets a group it cannot pack has uploaded nothing from there on. */
  lemma {:induction false} FailureStopsUploads(
    P: Primitives, s: State, chunks: seq<Chunk>, locs: Locs, i: nat, bad: nat)
    requires i <= |locs| == |chunks| && bad < |locs| && Reaches(chunks, locs, i, bad) && Lawful(P) && Healthy(P, s)
    requires locs[bad].None? && P.serialize(chunks[bad..GroupEnd(chunks, locs, bad)]).None?
    ensures !Packable(P, chunks, locs, i)
    ensures forall x :: x in UploadsFrom(P, s, chunks, locs, i).blobs && x !in s.blobs ==> RunBefore(chunks, bad, x)
    decreases |locs| - i
  {
    hide Lawful, Healthy, GroupEnd, UploadGroup, DedupComplete, Extends, RunBefore;
    if i != bad {
      var j := GroupEnd(chunks, locs, i);
      ReachesForward(chunks, locs, j, bad);
      if locs[i].Some? {
        FailureStopsUploads(P, s, chunks, locs, j, bad);
      } else if P.serialize(chunks[i..j]).Some? {
        UploadGroupEffect(P, s, chunks[i..j]);
        FailureStopsUploads(P, UploadGroup(P, s, chunks[i..j]), chunks, locs, j, bad);
        GroupRunsBefore(chunks, i, j, bad);
      } else {
        FailureStopsUploads(P, s, chunks, locs, j, bad);
      }
    }
  }

  lemma GroupRunsBefore(chunks: seq<Chunk>, i: nat, j: nat, bad: nat)
    requires i < j <= bad && j <= |chunks|
    ensures RunBefore(chunks, bad, XorbHash(chunks[i..j]))
  {
  }

  /** Everything known is uploaded by nobody: with every chunk answered, no upload happens. */
  lemma {:induction false} NoMissNoUpload(P: Primitives, s: State, chunks: seq<Chunk>, locs: Locs, i: nat)
    requires i <= |locs| == |chunks| && forall k :: i <= k < |locs| ==> locs[k].Some?
    ensures UploadsFrom(P, s, chunks, locs, i) == s && NovelXorbs(chunks, locs, i) == {} && Packable(P, chunks, locs, i)
    decreases |locs| - i
  {
    if i < |locs| {
      NoMissNoUpload(P, s, chunks, locs, GroupEnd(chunks, locs, i));
    }
  }

  // ---- Ingest ----

  ghost function IngestLocs(P: Primitives, s: State, bytes: Bytes): Locs {
    LookupAll(s, P.chunker(bytes))
  }

  /** The ingest goes through: every novel group packs, and no xorb it uploads is stored without
      being indexed. */
  ghost predicate CanIngest(P: Primitives, s: State, bytes: Bytes) {
    var chunks, locs := P.chunker(bytes), IngestLocs(P, s, bytes);
    && Packable(P, chunks, locs, 0)
    && forall x :: x in NovelXorbs(chunks, locs, 0) && x in s.blobs ==> x in s.xorbs
  }

  ghost function AfterUploads(P: Primitives, s: State, bytes: Bytes): State {
    UploadsFrom(P, s, P.chunker(bytes), IngestLocs(P, s, bytes), 0)
  }

  ghost function IngestRecord(P: Primitives, s: State, bytes: Bytes): FileRecord {
    FileRecord(|bytes|, Plan(P.chunker(bytes), IngestLocs(P, s, bytes), 0))
  }

  ghost function Ingested(P: Primitives, s: State, bytes: Bytes, key: CatalogKey): State {
    Register(AfterUploads(P, s, bytes), FileHash(P.chunker(bytes)), IngestRecord(P, s, bytes), Some(key))
  }

  /** The record an ingest registers spells out the file's chunks and its size. */
  lemma IngestRecordOk(P: Primitives, s: State, bytes: Bytes)
    requires LawfulChunker(P) && DedupSound(s)
    ensures RecordOk(P, FileHash(P.chunker(bytes)), IngestRecord(P, s, bytes))
  {
    hide Covered, TotalLen, Plan, TermsOk;
    var chunks := P.chunker(bytes);
    LookupAllSound(s, chunks);
    PlanCovers(chunks, IngestLocs(P, s, bytes), 0);
    FlattenLength(chunks);
    assert chunks[0..] == chunks;
  }

  /** Registration after the uploads succeeds exactly when the ingest can go through. */
  lemma IngestRegisters(P: Primitives, s: State, bytes: Bytes)
    requires Lawful(P) && Healthy(P, s)
    requires Packable(P, P.chunker(bytes), IngestLocs(P, s, bytes), 0)
    ensures CanRegister(AfterUploads(P, s, bytes), IngestRecord(P, s, bytes).terms) <==> CanIngest(P, s, bytes)
  {
    hide ServerOk, Lawful, Plan, NovelXorbs, UploadsFrom, Packable, DedupComplete;
    var chunks, locs, t := P.chunker(bytes), IngestLocs(P, s, bytes), AfterUploads(P, s, bytes);
    UploadsEffect(P, s, chunks, locs, 0);
    PlanXorbs(chunks, locs, 0);
    assert DedupSound(s) by { HealthyIsSound(P, s); }
    LookupAllSound(s, chunks);
    var terms := IngestRecord(P, s, bytes).terms;
    if CanRegister(t, terms) {
      forall x | x in NovelXorbs(chunks, locs, 0) && x in s.blobs
        ensures x in s.xorbs
      {
        var u :| u in terms && u.xorb == x;
      }
    }
  }

  lemma HealthyIsSound(P: Primitives, s: State)
    requires Healthy(P, s)
    ensures DedupSound(s) && OffsetsMatchBlobs(P, s) && FilesStored(P, s)
  {
  }

  /** After a successful ingest the server is healthy and the file is stored under its hash. */
  lemma IngestedIsHealthy(P: Primitives, s: State, bytes: Bytes, key: CatalogKey)
    requires Lawful(P) && Healthy(P, s) && CanIngest(P, s, bytes)
    ensures Healthy(P, Ingested(P, s, bytes, key))
    ensures Extends(s, AfterUploads(P, s, bytes))
  {
    hide RecordOk, Plan, NovelXorbs, UploadsFrom, Packable, DedupComplete, OffsetsMatchBlobs, FilesStored, DedupSound;
    HealthyIsSound(P, s);
    IngestRecordOk(P, s, bytes);
    IngestRegisters(P, s, bytes);
    var t := AfterUploads(P, s, bytes);
    UploadsEffect(P, s, P.chunker(bytes), IngestLocs(P, s, bytes), 0);
    assert t.xorbs.Keys <= t.blobs.Keys;
    RegisterKeepsOk(P, t, FileHash(P.chunker(bytes)), IngestRecord(P, s, bytes), Some(key));
  }

  /** Resolve every chunk against the dedup index up front. */
  method QueryAll(server: Server, chunks: seq<Chunk>) returns (locs: Locs)
    ensures locs == LookupAll(server.View(), chunks)
  {
    locs := [];
    for k := 0 to |chunks|
      invariant |locs| == k && forall i :: 0 <= i < k ==> locs[i] == Lookup(server.View(), chunks[i])
    {
      var found := server.GlobalDedup(ChunkHash(chunks[k]));
      locs := locs + [if found.Some? then Some(Hit(found.value.xorb, found.value.index)) else None];
    }
  }

  /** The maximal run of consecutive positions in one xorb. */
  method KnownRunEnd(locs: Locs, i: nat) returns (j: nat, expected: nat)
    requires i < |locs| && locs[i].Some?
    ensures j == KnownEnd(locs, i, i + 1) && expected == locs[i].value.index + (j - i)
  {
    j, expected := i + 1, locs[i].value.index + 1;
    while j < |locs| && locs[j].Some? && locs[j].value.xorb == locs[i].value.xorb && locs[j].value.index == expected
      invariant i < j <= |locs| && expected == locs[i].value.index + (j - i)
      invariant KnownEnd(locs, i, j) == KnownEnd(locs, i, i + 1)
    {
      expected := expected + 1;
      j := j + 1;
    }
  }

  /** The novel run bounded by both caps, or one oversized chunk. */
  method NovelRunEnd(chunks: seq<Chunk>, locs: Locs, i: nat) returns (j: nat)
    requires i < |locs| == |chunks| && locs[i].None?
    ensures j == GroupEnd(chunks, locs, i)
  {
    j := i;
    var acc := 0;
    assert chunks[i..i] == [];
    while j < |chunks| && locs[j].None? && j - i < MAX_XORB_CHUNKS && acc + |chunks[j]| <= MAX_XORB_UNCOMPRESSED
      invariant i <= j <= |chunks| && acc == TotalLen(chunks[i..j])
      invariant NovelScan(chunks, locs, i, j) == NovelScan(chunks, locs, i, i)
    {
      TotalLenGrows(chunks, i, j, j + 1);
      acc := acc + |chunks[j]|;
      j := j + 1;
    }
    if j == i {
      j := i + 1;
    }
  }

  /** Pack one novel group and upload it. */
  method UploadNovel(server: Server, group: seq<Chunk>) returns (r: Result<XorbHash, AgentError>)
    requires Lawful(server.P)
    modifies server
    ensures r.Ok? <==> server.P.serialize(group).Some?
    ensures r.Ok? ==> r.value == XorbHash(group) && server.View() == UploadGroup(server.P, old(server.View()), group)
    ensures r.Err? ==> r.error == SerializeFailed && server.View() == old(server.View())
  {
    var serialized := server.P.serialize(group);
    if serialized.None? {
      return Err(SerializeFailed);
    }
    ghost var body, info := UploadGroupInfo(server.P, group);
    var put := server.PutXorb(XorbHash(group), serialized.value);
    match put {
      case Err(status) => r := Err(UploadRefused(status));
      case Ok(_) => r := Ok(XorbHash(group));
    }
  }

  /** The greedy walk: one term per known run, one upload and one term per novel run. */
  method WalkChunks(server: Server, chunks: seq<Chunk>, locs: Locs) returns (r: Result<seq<Term>, AgentError>)
    requires Lawful(server.P) && |locs| == |chunks|
    modifies server
    ensures r.Ok? <==> Packable(server.P, chunks, locs, 0)
    ensures r.Ok? ==> r.value == Plan(chunks, locs, 0)
    ensures r.Err? ==> r.error == SerializeFailed
    ensures server.View() == UploadsFrom(server.P, old(server.View()), chunks, locs, 0)
  {
    hide Lawful, UploadGroup;
    var terms: seq<Term> := [];
    var i := 0;
    while i < |chunks|
      invariant i <= |chunks|
      invariant terms + Plan(chunks, locs, i) == Plan(chunks, locs, 0)
      invariant UploadsFrom(server.P, server.View(), chunks, locs, i)
             == UploadsFrom(server.P, old(server.View()), chunks, locs, 0)
      invariant Packable(server.P, chunks, locs, i) <==> Packable(server.P, chunks, locs, 0)
    {
      ghost var before := terms;
      var j, term;
      if locs[i].Some? {
        var expected;
        j, expected := KnownRunEnd(locs, i);
        term := Term(locs[i].value.xorb, locs[i].value.index, expected, TotalLen(chunks[i..j]));
      } else {
        j := NovelRunEnd(chunks, locs, i);
        var uploaded := UploadNovel(server, chunks[i..j]);
        if uploaded.Err? {
          return Err(uploaded.error);
        }
        term := Term(uploaded.value, 0, j - i, TotalLen(chunks[i..j]));
      }
      assert term == TermFor(chunks, locs, i, j);
      AppendAssociates(terms, [term], Plan(chunks, locs, j));
      terms := terms + [term];
      i := j;
    }
    r := Ok(terms);
  }

  /** Chunk, deduplicate, upload novel xorbs, register.  The answer is the content hash; it is
      refused exactly when a group cannot be packed or a xorb is stored but not yet indexed, and
      then nothing is registered. */
  method IngestBytes(
    server: Server, volume: string, dest: string, bytes: Bytes) returns (r: Result<FileHash, AgentError>)
    requires server.Valid()
    modifies server
    ensures server.Valid()
    ensures r.Ok? <==> CanIngest(server.P, old(server.View()), bytes)
    ensures r.Ok? ==> r.value == FileHash(server.P.chunker(bytes))
                      && server.View() == Ingested(server.P, old(server.View()), bytes, (volume, dest))
    ensures r.Err? ==> server.View() == AfterUploads(server.P, old(server.View()), bytes)
    ensures r.Err? ==>
      var locs := IngestLocs(server.P, old(server.View()), bytes);
      var packable := Packable(server.P, server.P.chunker(bytes), locs, 0);
      r.error == if packable then RegisterRefused(BadRequest) else SerializeFailed
  {
    hide ServerOk, Lawful, UploadsFrom, Plan, Packable, NovelXorbs, DedupComplete, Extends;
    ghost var P, s := server.P, server.View();
    var chunks := server.P.chunker(bytes);
    var fh := FileHash(chunks);
    var locs := QueryAll(server, chunks);
    var walked := WalkChunks(server, chunks, locs);
    UploadsEffect(P, s, chunks, locs, 0);
    if walked.Err? {
      return Err(walked.error);
    }
    IngestRegisters(P, s, bytes);
    assert TotalLen(chunks) == |bytes| by { IngestSize(P, bytes); }
    var registered := server.RegisterFile(fh, TotalLen(chunks), walked.value, Some(volume), Some(dest));
    if registered.Err? {
      return Err(RegisterRefused(registered.error));
    }
    IngestedIsHealthy(P, s, bytes, (volume, dest));
    r := Ok(fh);
  }

  lemma IngestSize(P: Primitives, bytes: Bytes)
    requires Lawful(P)
    ensures TotalLen(P.chunker(bytes)) == |bytes|
  {
    FlattenLength(P.chunker(bytes));
  }

  // ---- Reassembly ----

  method FindEntry(entries: seq<FetchInfo>, start: nat, end: nat) returns (found: Option<FetchInfo>)
    ensures found == EntryCovering(entries, start, end)
  {
    for m := 0 to |entries|
      invariant EntryCovering(entries[m..], start, end) == EntryCovering(entries, start, end)
    {
      if entries[m].start <= start && entries[m].end >= end {
        return Some(entries[m]);
      }
      assert entries[m..][1..] == entries[m + 1..];
    }
    found := None;
  }

  ghost function Prepend(done: seq<Chunk>, rest: Option<seq<Chunk>>): Option<seq<Chunk>> {
    if rest.None? then None else Some(done + rest.value)
  }

  lemma PrependNothing(rest: Option<seq<Chunk>>)
    ensures Prepend([], rest) == rest
  {
    if rest.Some? { assert [] + rest.value == rest.value; }
  }

  /** Decode exactly `n` chunks from the start of `body`, appending their data. */
  method DecodeChunks(P: Primitives, body: Bytes, n: nat) returns (r: Result<Bytes, AgentError>)
    ensures r == match DecodeRun(P, body, n) case None => Err(DecodeFailed) case Some(cs) => Ok(Flatten(cs))
  {
    var out: Bytes := [];
    var cursor := body;
    ghost var done: seq<Chunk> := [];
    PrependNothing(DecodeRun(P, body, n));
    for i := 0 to n
      invariant out == Flatten(done)
      invariant Prepend(done, DecodeRun(P, cursor, n - i)) == DecodeRun(P, body, n)
    {
      match P.decodeChunk(cursor) {
        case None => return Err(DecodeFailed);
        case Some((data, used)) =>
          FlattenSnoc(done, data);
          ghost var rest := DecodeRun(P, cursor[Min(used, |cursor|)..], n - i - 1);
          if rest.Some? { AppendAssociates(done, [data], rest.value); }
          out := out + data;
          done := done + [data];
          cursor := cursor[Min(used, |cursor|)..];
      }
    }
    assert done + [] == done;
    r := Ok(out);
  }

  /** Fetch one entry's byte range and decode `n` chunks of it, whatever the server holds. */
  method FetchChunks(server: Server, entry: FetchInfo, n: nat) returns (r: Result<Bytes, AgentError>)
    ensures r == ToBytes(DecodeRun(server.P, FetchBody(server.View(), entry), n))
  {
    hide ParseRange, RangeHeader, DecodeRun, GetRange, Flatten;
    var fetched := server.XorbData(entry.url, Some(RangeHeader(entry.byteStart, entry.byteEnd)));
    var body := if fetched.Ok? then fetched.value else [];
    r := DecodeChunks(server.P, body, n);
  }

  /** One term of the reassembly: choose an entry, fetch it, decode. */
  method ReconstructTerm(server: Server, ghost terms: seq<Term>, recon: ReconResponse, k: nat)
    returns (r: Result<Bytes, AgentError>)
    requires Answers(server.xorbs, terms, recon) && k < |terms|
    ensures r == ReadTerm(server.P, server.View(), server.View(), terms, k)
  {
    hide Answers, EntryCovering, EntriesFor, DecodeRun, FetchBody;
    AnswerAt(server.xorbs, terms, recon, k);
    var t := recon.terms[k];
    var found := FindEntry(recon.fetchInfo[t.hash], t.start, t.end);
    if found.None? {
      return Err(NoCoveringEntry);
    }
    r := FetchChunks(server, found.value, if t.start < t.end then t.end - t.start else 0);
  }

  lemma AnswerAt(xorbs: map<XorbHash, XorbMeta>, terms: seq<Term>, recon: ReconResponse, k: nat)
    requires Answers(xorbs, terms, recon) && k < |terms|
    ensures |recon.terms| == |terms| && recon.terms[k] == ToReconTerm(terms[k])
    ensures terms[k].xorb in recon.fetchInfo
    ensures recon.fetchInfo[terms[k].xorb] == EntriesFor(xorbs, terms, terms[k].xorb)
  {
    hide EntriesFor;
    assert terms[..|terms|] == terms;
    assert EntriesFor(xorbs, terms[..|terms|], terms[k].xorb) == recon.fetchInfo[terms[k].xorb];
  }

  /** Fetch a file's reconstruction and reassemble it: in every server state in which the handler does
      not panic, the answer is that of the read of that state, errors included. */
  method Reconstruct(server: Server, fh: FileHash) returns (r: Result<Bytes, AgentError>)
    requires fh in server.files ==> NoPanic(server.xorbs, server.files[fh].terms)
    ensures r == ReadBack(server.P, server.View(), fh)
  {
    hide NoPanic, CanRegister, EntriesUpTo, ReadTerm;
    var answer := server.Reconstruct(fh);
    if answer.Err? {
      return Err(QueryRefused(answer.error));
    }
    var recon := answer.value;
    ghost var terms := server.files[fh].terms;
    var out: Bytes := [];
    for k := 0 to |recon.terms|
      invariant ReadUpTo(server.P, server.View(), terms, k) == Ok(out)
    {
      r := ReconstructTerm(server, terms, recon, k);
      if r.Err? {
        FailsFrom(server.P, server.View(), terms, k + 1, |terms|);
        return;
      }
      out := out + r.value;
    }
    r := Ok(out);
  }

  /** Once a term fails, the read fails with that error. */
  lemma {:induction false} FailsFrom(P: Primitives, s: State, terms: seq<Term>, j: nat, k: nat)
    requires j <= k <= |terms| && ReadUpTo(P, s, terms, j).Err?
    ensures ReadUpTo(P, s, terms, k) == ReadUpTo(P, s, terms, j)
    decreases k
  {
    hide ReadTerm;
    if j < k {
      FailsFrom(P, s, terms, j, k - 1);
    }
  }

  /** The same on a sound server, where reads of registered files go through. */
  method ReconstructStored(server: Server, fh: FileHash) returns (r: Result<Bytes, AgentError>)
    requires ServerOk(server.P, server.View())
    ensures fh !in server.files ==> r == Err(QueryRefused(NotFound))
    ensures fh in server.files ==> r == Ok(Reassembled(server.files[fh].terms))
  {
    hide NoPanic, CanRegister, ServerOk, ReadUpTo, Reassembled, AllTranslatable;
    if fh in server.files {
      StoredFileTranslates(server.P, server.View(), fh);
      ReadBackIsReassembled(server.P, server.View(), fh);
    }
    r := Reconstruct(server, fh);
  }

  // ---- The laws of ingest and reassembly ----

  /** Ingest, then reconstruct the returned hash, from any valid server state: the decoded chunks are
      the input's if and only if the registered terms are aligned; then the original bytes come back,
      as they always do when no chunk repeats. */
  method IngestThenReconstruct(server: Server, volume: string, dest: string, bytes: Bytes)
    returns (hash: Result<FileHash, AgentError>, back: Result<Bytes, AgentError>)
    requires server.Valid()
    modifies server
    ensures server.Valid()
    ensures hash.Ok? <==> CanIngest(server.P, old(server.View()), bytes)
    ensures hash.Ok? ==> hash.value in server.files
                         && back == Ok(Reassembled(server.files[hash.value].terms))
    ensures hash.Ok? ==>
      var terms := IngestRecord(server.P, old(server.View()), bytes).terms;
      && server.files[hash.value].terms == terms
      && (Covered(ShiftedAll(terms)) == server.P.chunker(bytes) <==> Aligned(terms))
      && (Aligned(terms) ==> back == Ok(bytes))
      && (SameLengths(Covered(ShiftedAll(terms)), server.P.chunker(bytes)) ==> (back == Ok(bytes) <==> Aligned(terms)))
      && (Distinct(server.P.chunker(bytes)) ==> Aligned(terms))
  {
    hide Distinct, Aligned, Reassembled, CanIngest, AfterUploads, IngestRecord, ServerOk, Flatten, Covered, ShiftedAll,
      SameLengths;
    hash := IngestBytes(server, volume, dest, bytes);
    if hash.Err? {
      return hash, Err(hash.error);
    }
    back := ReconstructStored(server, hash.value);
    StoredFileReassembles(server.P, server.View(), hash.value);
    assert Flatten(server.P.chunker(bytes)) == bytes;
  }

  /** Collection changes no file's reassembly, whatever the file, and a second run finds nothing. */
  method CollectBetweenReads(server: Server, fh: FileHash)
    returns (before: Result<Bytes, AgentError>, swept: nat, after: Result<Bytes, AgentError>, again: nat)
    requires server.Valid()
    modifies server
    ensures server.Valid()
    ensures before == after && again == 0
    ensures swept == |Unreferenced(old(server.View()))|
  {
    hide ServerOk, Reassembled, Lawful;
    before := ReconstructStored(server, fh);
    swept := server.Gc();
    after := ReconstructStored(server, fh);
    again := server.Gc();
  }

  /** What an ingest uploads is exactly what the dedup index did not have. */
  lemma IngestUploadsMisses(P: Primitives, s: State, bytes: Bytes)
    requires Lawful(P) && Healthy(P, s) && CanIngest(P, s, bytes)
    ensures var novel := NovelXorbs(P.chunker(bytes), IngestLocs(P, s, bytes), 0);
            && AfterUploads(P, s, bytes).blobs.Keys == s.blobs.Keys + novel
            && forall c :: (exists x :: x in novel && c in x.chunks)
                      <==> c in P.chunker(bytes) && ChunkHash(c) !in s.chunkIndex
  {
    hide Lawful, Healthy, NovelXorbs, UploadsFrom, DedupComplete, Extends;
    var chunks, locs := P.chunker(bytes), IngestLocs(P, s, bytes);
    UploadsEffect(P, s, chunks, locs, 0);
    forall c
      ensures (exists x :: x in NovelXorbs(chunks, locs, 0) && c in x.chunks)
         <==> c in chunks && ChunkHash(c) !in s.chunkIndex
    {
      NovelXorbsHoldMisses(chunks, locs, 0, c);
      if c in chunks && ChunkHash(c) !in s.chunkIndex {
        var k :| 0 <= k < |chunks| && chunks[k] == c;
        assert locs[k].None?;
      }
    }
  }

  /** Without collection, a successful ingest leaves every one of its chunks findable. */
  lemma IngestIndexesEverything(P: Primitives, s: State, bytes: Bytes, key: CatalogKey)
    requires Lawful(P) && Healthy(P, s) && DedupComplete(s) && CanIngest(P, s, bytes)
    ensures DedupComplete(Ingested(P, s, bytes, key))
    ensures forall c :: c in P.chunker(bytes) ==> ChunkHash(c) in Ingested(P, s, bytes, key).chunkIndex
  {
    hide Lawful, Healthy, NovelXorbs, UploadsFrom, Packable;
    var chunks, locs, t := P.chunker(bytes), IngestLocs(P, s, bytes), AfterUploads(P, s, bytes);
    UploadsEffect(P, s, chunks, locs, 0);
    forall c | c in chunks
      ensures ChunkHash(c) in t.chunkIndex
    {
      if ChunkHash(c) !in s.chunkIndex {
        IngestUploadsMisses(P, s, bytes);
        var x :| x in NovelXorbs(chunks, locs, 0) && c in x.chunks;
        assert x in t.xorbs;
        var i :| 0 <= i < |x.chunks| && x.chunks[i] == c;
        assert ChunkHash(x.chunks[i]) in t.chunkIndex;
      }
    }
  }

  /** An ingest made only of indexed chunks always goes through and uploads nothing. */
  lemma KnownChunksUploadNothing(P: Primitives, s: State, bytes: Bytes)
    requires forall c :: c in P.chunker(bytes) ==> ChunkHash(c) in s.chunkIndex
    ensures CanIngest(P, s, bytes) && AfterUploads(P, s, bytes) == s
  {
    NoMissNoUpload(P, s, P.chunker(bytes), IngestLocs(P, s, bytes), 0);
  }

  /** Cloning is free: once ingested, the same bytes, or any bytes cut into chunks stored since,
      add no blob and no xorb. */
  lemma SecondIngestIsFree(P: Primitives, s: State, bytes: Bytes, key: CatalogKey, more: Bytes)
    requires Lawful(P) && Healthy(P, s) && DedupComplete(s) && CanIngest(P, s, bytes)
    requires forall c :: c in P.chunker(more) ==> c in P.chunker(bytes) || ChunkHash(c) in s.chunkIndex
    ensures var t := Ingested(P, s, bytes, key);
            CanIngest(P, t, more) && AfterUploads(P, t, more) == t
  {
    hide Lawful, Healthy, DedupComplete, CanIngest, IngestRecord;
    var t := Ingested(P, s, bytes, key);
    IngestIndexesEverything(P, s, bytes, key);
    UploadsEffect(P, s, P.chunker(bytes), IngestLocs(P, s, bytes), 0);
    KnownChunksUploadNothing(P, t, more);
  }
}
