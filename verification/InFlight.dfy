/** Reads that overlap other traffic.  The agent takes the server's answer at one moment of a run and
    fetches each term at a later one; meanwhile the file may be registered again on other xorbs and
    the old ones collected. */
module InFlight {
  import opened Basics
  import opened XorbFormat
  import opened ServerModel
  import opened Planner
  import opened Reading
  import opened Protocol
  import opened GuardExactness

  // ---- Along a run ----

  /** The server at moment `i` of a run. */
  ghost function At(P: Primitives, es: seq<Event>, i: nat): Core
    requires i <= |es|
  {
    Run(P, es[..i]).core
  }

  /** When each term is fetched: after the answer, within the run. */
  ghost predicate Schedule(es: seq<Event>, a: nat, at: seq<nat>) {
    a <= |es| && forall k :: 0 <= k < |at| ==> a <= at[k] <= |es|
  }

  /** The first `k` terms of an answer taken at moment `a`, term `j` being fetched at moment `at[j]`. */
  ghost function ReadAlong(
    P: Primitives, es: seq<Event>, a: nat, at: seq<nat>, terms: seq<Term>, k: nat): Result<Bytes, AgentError>
    requires Schedule(es, a, at) && k <= |terms| == |at|
  {
    if k == 0 then Ok([]) else
    match ReadAlong(P, es, a, at, terms, k - 1)
    case Err(e) => Err(e)
    case Ok(before) =>
      match ReadTerm(P, At(P, es, a).server, At(P, es, at[k - 1]).server, terms, k - 1)
      case Err(e) => Err(e)
      case Ok(bytes) => Ok(before + bytes)
  }

  /** A blob changes only by a collection that has it marked. */
  lemma BlobStays(P: Primitives, s: System, e: Event, x: XorbHash)
    requires x in s.core.server.blobs && !Doomed(s.core, x)
    ensures var blobs := Step(P, s, e).core.server.blobs; x in blobs && blobs[x] == s.core.server.blobs[x]
  {
    hide GroupEnd, TermFor, ServerModel.IndexChunks, CanRegister, Unreferenced;
  }

  /** No collection has `x` marked from moment `a` until moment `b`. */
  ghost predicate Undoomed(P: Primitives, es: seq<Event>, a: nat, b: nat, x: XorbHash)
    requires b <= |es|
  {
    forall i :: a <= i < b ==> !Doomed(At(P, es, i), x)
  }

  lemma AtStep(P: Primitives, es: seq<Event>, i: nat)
    requires i < |es|
    ensures Run(P, es[..i + 1]) == Step(P, Run(P, es[..i]), es[i])
  {
    hide Step;
    assert es[..i + 1][..i] == es[..i];
  }

  lemma {:induction false} BlobStaysUntil(P: Primitives, es: seq<Event>, a: nat, b: nat, x: XorbHash)
    requires a <= b <= |es| && x in At(P, es, a).server.blobs && Undoomed(P, es, a, b, x)
    ensures x in At(P, es, b).server.blobs && At(P, es, b).server.blobs[x] == At(P, es, a).server.blobs[x]
    decreases b
  {
    hide RunFrom, Step, Doomed;
    if a < b {
      BlobStaysUntil(P, es, a, b - 1, x);
      AtStep(P, es, b - 1);
      BlobStays(P, Run(P, es[..b - 1]), es[b - 1], x);
    }
  }

  lemma {:induction false} GuardedPrefix(P: Primitives, es: seq<Event>, i: nat)
    requires Guarded(P, es) && i <= |es|
    ensures Guarded(P, es[..i])
  {
    hide RunFrom, Guard;
    if i < |es| {
      assert es[..|es| - 1][..i] == es[..i];
      GuardedPrefix(P, es[..|es| - 1], i);
    } else {
      assert es[..i] == es;
    }
  }

  lemma InvAt(P: Primitives, es: seq<Event>, i: nat)
    requires Lawful(P) && Guarded(P, es) && i <= |es|
    ensures Inv(P, Run(P, es[..i])) && ServerOk(P, At(P, es, i).server)
  {
    hide Lawful, Inv, RunFrom, NamesOk, ServerOk, GuardedFrom;
    GuardedPrefix(P, es, i);
    InitialInv(P);
    GuardedRunsKeepInv(P, INITIAL, es[..i]);
    InvServerOk(P, Run(P, es[..i]));
  }

  lemma {:induction false} ReadAlongIsDecoded(P: Primitives, es: seq<Event>, a: nat, at: seq<nat>, fh: FileHash, k: nat)
    requires Schedule(es, a, at) && ServerOk(P, At(P, es, a).server) && fh in At(P, es, a).server.files
    requires var terms := At(P, es, a).server.files[fh].terms;
             && k <= |terms| == |at|
             && forall j :: 0 <= j < |terms| ==> Undoomed(P, es, a, at[j], terms[j].xorb)
    ensures var terms := At(P, es, a).server.files[fh].terms;
            ReadAlong(P, es, a, at, terms, k) == Ok(DecodedUpTo(terms, k))
    decreases k
  {
    hide ServerOk, ReadTerm, DecodedUpTo, Flatten, TermChunks, Shifted, At, Undoomed;
    var server := At(P, es, a).server;
    var terms := server.files[fh].terms;
    DecodedEnds(terms);
    if k > 0 {
      ReadAlongIsDecoded(P, es, a, at, fh, k - 1);
      StoredBlob(P, server, fh, k - 1);
      BlobStaysUntil(P, es, a, at[k - 1], terms[k - 1].xorb);
      TermReads(P, server, At(P, es, at[k - 1]).server, fh, k - 1);
      DecodedStep(terms, k - 1);
    }
  }

  /** A read in flight, in any guarded run: if no collection marks a term's xorb between the answer and
      the fetch of that term, the read yields what a read at the moment of the answer does. */
  lemma ReadInFlight(P: Primitives, es: seq<Event>, a: nat, at: seq<nat>, fh: FileHash)
    requires Lawful(P) && Guarded(P, es) && Schedule(es, a, at) && fh in At(P, es, a).server.files
    requires var terms := At(P, es, a).server.files[fh].terms;
             |at| == |terms| && forall j :: 0 <= j < |terms| ==> Undoomed(P, es, a, at[j], terms[j].xorb)
    ensures var server := At(P, es, a).server;
            ReadAlong(P, es, a, at, server.files[fh].terms, |at|) == ReadBack(P, server, fh)
  {
    hide Lawful, GuardedFrom, At, ServerOk, Undoomed, ReadAlong, ReadBack, Reassembled, DecodedUpTo, Inv;
    var server := At(P, es, a).server;
    InvAt(P, es, a);
    ReadAlongIsDecoded(P, es, a, at, fh, |at|);
    DecodedEnds(server.files[fh].terms);
    ReadBackIsReassembled(P, server, fh);
  }

  /** In particular while the file is not registered again with another record. */
  lemma ReadWhileRegistered(P: Primitives, es: seq<Event>, a: nat, at: seq<nat>, fh: FileHash)
    requires Lawful(P) && Guarded(P, es) && Schedule(es, a, at) && fh in At(P, es, a).server.files
    requires |at| == |At(P, es, a).server.files[fh].terms|
    requires forall j, i :: 0 <= j < |at| && a <= i < at[j] ==>
               fh in At(P, es, i).server.files && At(P, es, i).server.files[fh] == At(P, es, a).server.files[fh]
    ensures var server := At(P, es, a).server;
            ReadAlong(P, es, a, at, server.files[fh].terms, |at|) == ReadBack(P, server, fh)
  {
    hide Lawful, GuardedFrom, At, ServerOk, ReadAlong, ReadBack, Inv, Doomed;
    var terms := At(P, es, a).server.files[fh].terms;
    forall j | 0 <= j < |terms|
      ensures Undoomed(P, es, a, at[j], terms[j].xorb)
    {
      forall i | a <= i < at[j]
        ensures !Doomed(At(P, es, i), terms[j].xorb)
      {
        InvAt(P, es, i);
        assert At(P, es, i) == Run(P, es[..i]).core by { AtIsRun(P, es, i); }
        NotDoomedWhileNamed(P, Run(P, es[..i]), fh, j);
      }
    }
    ReadInFlight(P, es, a, at, fh);
  }

  lemma AtIsRun(P: Primitives, es: seq<Event>, i: nat)
    requires i <= |es|
    ensures At(P, es, i) == Run(P, es[..i]).core
  {
  }

  lemma NotDoomedWhileNamed(P: Primitives, s: System, fh: FileHash, j: nat)
    requires Inv(P, s) && fh in s.core.server.files && j < |s.core.server.files[fh].terms|
    ensures !Doomed(s.core, s.core.server.files[fh].terms[j].xorb)
  {
    hide OffsetsMatchBlobs, DedupSound, Doomed, RecordOk, AllPendingOk, OneInserter, IndexedStored, BlobsOwned,
      ClientsOk;
    assert FileOk(P, s.core, fh, s.core.server.files[fh]);
  }

  // ---- Exactly when a fetch still to come is safe ----

  /** No collection has marked `x`, and none that starts now would. */
  ghost predicate Kept(k: Core, x: XorbHash) {
    !Doomed(k, x) && (x in k.server.xorbs ==> x in Referenced(k.server.files))
  }

  lemma KeptByCollectors(P: Primitives, s: System, e: Event, x: XorbHash)
    requires Kept(s.core, x) && CollectorEvent(e)
    ensures Kept(Step(P, s, e).core, x)
  {
    hide Referenced;
  }

  lemma {:induction false} KeptStays(P: Primitives, s: System, es: seq<Event>, x: XorbHash)
    requires Kept(s.core, x) && CollectorRun(es) && x in s.core.server.blobs
    ensures var k := RunFrom(P, s, es).core;
            Kept(k, x) && x in k.server.blobs && k.server.blobs[x] == s.core.server.blobs[x]
  {
    hide Step, Doomed, Referenced;
    if |es| > 0 {
      var init, e := es[..|es| - 1], es[|es| - 1];
      KeptStays(P, s, init, x);
      KeptByCollectors(P, RunFrom(P, s, init), e, x);
      BlobStays(P, RunFrom(P, s, init), e, x);
    }
  }

  lemma {:induction false} FreshName(names: set<nat>) returns (g: nat)
    ensures g !in names && forall n :: n in names ==> n < g
    decreases names
  {
    if names == {} {
      g := 0;
    } else {
      var n :| n in names;
      var below := FreshName(names - {n});
      g := if n < below then below else n + 1;
      assert forall m :: m in names ==> m == n || m in names - {n};
    }
  }

  /** Collector steps that delete `x`, unless it is kept. */
  lemma UnkeptIsLost(P: Primitives, s: System, x: XorbHash) returns (es: seq<Event>)
    requires CollectorsOk(s.core) && x in s.core.server.blobs && !Kept(s.core, x)
    ensures CollectorRun(es) && x !in RunFrom(P, s, es).core.server.blobs
  {
    hide RunFrom, Referenced, Step;
    if Doomed(s.core, x) {
      var g :| g in s.core.collectors && x in s.core.collectors[g].todo;
      es := CollectorReaches(P, s, g, x);
    } else {
      var g := FreshName(s.core.collectors.Keys);
      es := [GcMark(g), GcDelete(g, x)];
      RunTwo(P, s, GcMark(g), GcDelete(g, x));
      MarkThenDelete(P, s, g, x);
    }
  }

  lemma MarkThenDelete(P: Primitives, s: System, g: nat, x: XorbHash)
    requires g !in s.core.collectors && x in Unreferenced(s.core.server)
    ensures x !in Step(P, Step(P, s, GcMark(g)), GcDelete(g, x)).core.server.blobs
  {
    hide Unreferenced;
  }

  /** The fetch of a term still to come gives its right bytes after every continuation of the
      collections, those running and those yet to start, if and only if its xorb is not marked and
      is named by some registered file or not indexed yet. */
  lemma FetchSafeExactly(P: Primitives, asked: State, s: System, fh: FileHash, k: nat)
    requires LawfulDecode(P) && ServerOk(P, asked) && fh in asked.files && k < |asked.files[fh].terms|
    requires CollectorsOk(s.core)
    requires var x := asked.files[fh].terms[k].xorb;
             x in asked.blobs && x in s.core.server.blobs && s.core.server.blobs[x] == asked.blobs[x]
    ensures var terms := asked.files[fh].terms;
            Kept(s.core, terms[k].xorb) <==>
            forall es :: CollectorRun(es) ==>
              ReadTerm(P, asked, RunFrom(P, s, es).core.server, terms, k)
                == Ok(Flatten(TermChunks(Shifted(terms, terms[k]))))
  {
    hide LawfulDecode, ServerOk, RunFrom, Kept, ReadTerm, CollectorRun, CollectorsOk, Flatten, TermChunks, Shifted;
    var terms := asked.files[fh].terms;
    var x := terms[k].xorb;
    if Kept(s.core, x) {
      forall es | CollectorRun(es)
        ensures ReadTerm(P, asked, RunFrom(P, s, es).core.server, terms, k)
          == Ok(Flatten(TermChunks(Shifted(terms, terms[k]))))
      {
        KeptStays(P, s, es, x);
        TermReads(P, asked, RunFrom(P, s, es).core.server, fh, k);
      }
    } else {
      var es := UnkeptIsLost(P, s, x);
      StoredCover(P, asked, fh, k);
      MissingBlobFails(P, asked, RunFrom(P, s, es).core.server, terms, k);
    }
  }

  // ---- The other traffic ----

  /** Indexes `x`, which no file can name yet, or replaces the last record that names it. */
  ghost predicate Unnames(s: System, e: Event, x: XorbHash) {
    match e
    case FinishIndex(u) => u in s.core.pending && s.core.pending[u].hash == x
    case RegisterFile(c) =>
      && AcceptedRegistration(s, c) && x in s.core.server.xorbs
      && x !in Referenced(s.core.server.files[
                 FileHash(s.clients[c].chunks) := FileRecord(TotalLen(s.clients[c].chunks), s.clients[c].terms)])
    case _ => false
  }

  lemma NotNamedYet(P: Primitives, s: System, u: nat)
    requires Inv(P, s) && u in s.core.pending
    ensures var p := s.core.pending[u];
            && p.hash !in Referenced(s.core.server.files) && p.hash !in s.core.server.xorbs
            && |p.info.chunkHashes| == |p.info.unpackedOffsets|
  {
    hide OffsetsMatchBlobs, DedupSound, IndexedStored, BlobsOwned, OneInserter, CollectorsOk, ClientsOk, RecordOk,
      Doomed, Encodes;
    assert PendingOk(P, s.core, s.core.pending[u]);
    var x := s.core.pending[u].hash;
    forall fh, t | fh in s.core.server.files && t in s.core.server.files[fh].terms
      ensures t.xorb != x
    {
      assert FileOk(P, s.core, fh, s.core.server.files[fh]);
    }
  }

  /** Of all steps of the system, exactly these take a xorb out of safety: its own index step, and a
      registration that replaces the last record naming it. */
  lemma KeptLostExactly(P: Primitives, s: System, e: Event, x: XorbHash)
    requires Inv(P, s) && Kept(s.core, x)
    ensures Kept(Step(P, s, e).core, x) <==> !Unnames(s, e, x)
  {
    hide Inv, Referenced, GroupEnd, TermFor, ServerModel.IndexChunks, CanRegister, Doomed;
    match e {
      case FinishIndex(u) =>
        if u in s.core.pending {
          NotNamedYet(P, s, u);
          IndexDooms(P, s, u, x);
        }
      case RegisterFile(c) =>
        SameCollectorsSameDoom(s.core, Step(P, s, e).core);
      case GcMark(g) => KeptByCollectors(P, s, e, x);
      case GcDelete(g, y) => KeptByCollectors(P, s, e, x);
      case GcEvict(g) => KeptByCollectors(P, s, e, x);
      case GcDone(g) => KeptByCollectors(P, s, e, x);
      case _ => SameCollectorsSameDoom(s.core, Step(P, s, e).core);
    }
  }

  lemma IndexDooms(P: Primitives, s: System, u: nat, x: XorbHash)
    requires u in s.core.pending
    ensures var t := Step(P, s, FinishIndex(u));
            && (Doomed(t.core, x) <==> Doomed(s.core, x)) && t.core.server.files == s.core.server.files
            && (var p := s.core.pending[u];
                |p.info.chunkHashes| == |p.info.unpackedOffsets| ==>
                  (x in t.core.server.xorbs <==> x in s.core.server.xorbs || x == p.hash))
  {
    hide GroupEnd, TermFor, ServerModel.IndexChunks, Doomed;
    SameCollectorsSameDoom(s.core, Step(P, s, FinishIndex(u)).core);
  }

  /** No step of the run takes `x` out of safety. */
  ghost predicate NeverUnnamed(P: Primitives, s: System, es: seq<Event>, x: XorbHash) {
    forall i :: 0 <= i < |es| ==> !Unnames(RunFrom(P, s, es[..i]), es[i], x)
  }

  lemma {:induction false} KeptAlong(P: Primitives, s: System, es: seq<Event>, x: XorbHash)
    requires Lawful(P) && Inv(P, s) && NamesOk(s) && GuardedFrom(P, s, es)
    requires Kept(s.core, x) && x in s.core.server.blobs && NeverUnnamed(P, s, es, x)
    ensures var k := RunFrom(P, s, es).core;
            Kept(k, x) && x in k.server.blobs && k.server.blobs[x] == s.core.server.blobs[x]
  {
    hide Lawful, Inv, NamesOk, Step, Doomed, Referenced, Guard, Unnames;
    if |es| > 0 {
      var init, e := es[..|es| - 1], es[|es| - 1];
      assert forall i :: 0 <= i < |init| ==> init[..i] == es[..i];
      KeptAlong(P, s, init, x);
      GuardedRunsKeepInv(P, s, init);
      KeptLostExactly(P, RunFrom(P, s, init), e, x);
      BlobStays(P, RunFrom(P, s, init), e, x);
    }
  }

  /** So a fetch still to come stays right through any further guarded traffic of all kinds, as long as its
      xorb keeps a name. */
  lemma FetchSafeAlong(P: Primitives, asked: State, s: System, fh: FileHash, k: nat, es: seq<Event>)
    requires Lawful(P) && Inv(P, s) && NamesOk(s) && GuardedFrom(P, s, es)
    requires ServerOk(P, asked) && fh in asked.files && k < |asked.files[fh].terms|
    requires var x := asked.files[fh].terms[k].xorb;
             && x in asked.blobs && x in s.core.server.blobs && s.core.server.blobs[x] == asked.blobs[x]
             && Kept(s.core, x) && NeverUnnamed(P, s, es, x)
    ensures var terms := asked.files[fh].terms;
            ReadTerm(P, asked, RunFrom(P, s, es).core.server, terms, k)
            == Ok(Flatten(TermChunks(Shifted(terms, terms[k]))))
  {
    hide Lawful, Inv, NamesOk, GuardedFrom, ServerOk, RunFrom, Kept, ReadTerm, Flatten, TermChunks, Shifted,
      NeverUnnamed;
    KeptAlong(P, s, es, asked.files[fh].terms[k].xorb);
    TermReads(P, asked, RunFrom(P, s, es).core.server, fh, k);
  }
}
