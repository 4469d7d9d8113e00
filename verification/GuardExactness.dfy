/** The collection guard is exactly what is needed: an event that violates it can be continued, by
    collector steps and the event's own index step alone, to a state where stored data is lost, or
    where a stored blob can never be indexed again. */
module GuardExactness {
  import opened Basics
  import opened XorbFormat
  import opened ServerModel
  import opened Planner
  import opened Protocol

  predicate CollectorEvent(e: Event) {
    e.GcMark? || e.GcDelete? || e.GcEvict? || e.GcDone?
  }

  predicate CollectorRun(es: seq<Event>) {
    forall i :: 0 <= i < |es| ==> CollectorEvent(es[i])
  }

  /** Every xorb of every registered file is indexed and stored. */
  ghost predicate FilesIntact(s: State) {
    forall fh, i :: fh in s.files && 0 <= i < |s.files[fh].terms| ==>
      s.files[fh].terms[i].xorb in s.xorbs && s.files[fh].terms[i].xorb in s.blobs
  }

  ghost predicate AcceptedRegistration(s: System, c: nat) {
    && c in s.clients && Walking(s.clients[c]) && s.clients[c].i == |s.clients[c].chunks|
    && CanRegister(s.core.server, s.clients[c].terms)
  }

  lemma {:induction false} CollectorRunsAreGuarded(P: Primitives, s: System, es: seq<Event>)
    requires CollectorRun(es)
    ensures GuardedFrom(P, s, es)
  {
    hide RunFrom;
    if |es| > 0 {
      CollectorRunsAreGuarded(P, s, es[..|es| - 1]);
    }
  }

  lemma SafeServerKeepsFiles(P: Primitives, s: State)
    requires ServerOk(P, s)
    ensures FilesIntact(s)
  {
    hide RecordOk, OffsetsMatchBlobs, DedupSound;
    forall fh, i | fh in s.files && 0 <= i < |s.files[fh].terms|
      ensures s.files[fh].terms[i].xorb in s.xorbs && s.files[fh].terms[i].xorb in s.blobs
    {
      assert FileStored(P, s, fh);
    }
  }

  /** Collector steps of `g` that delete `x`, from any state in which `x` is on its list. */
  lemma CollectorReaches(P: Primitives, s: System, g: nat, x: XorbHash) returns (es: seq<Event>)
    requires g in s.core.collectors && x in s.core.collectors[g].todo
    requires s.core.collectors[g].deleting != Some(x)
    ensures CollectorRun(es)
    ensures x !in RunFrom(P, s, es).core.server.blobs
    ensures RunFrom(P, s, es).core.server.files == s.core.server.files
    ensures RunFrom(P, s, es).core.pending == s.core.pending
  {
    if s.core.collectors[g].deleting.None? {
      es := [GcDelete(g, x)];
      RunOne(P, s, GcDelete(g, x));
    } else {
      es := [GcEvict(g), GcDelete(g, x)];
      RunTwo(P, s, GcEvict(g), GcDelete(g, x));
    }
  }

  lemma RegisterThenLose(P: Primitives, s: System, c: nat) returns (es: seq<Event>)
    requires CollectorsOk(s.core) && AcceptedRegistration(s, c)
    requires !FreeToRegister(s.core, s.clients[c].terms)
    ensures CollectorRun(es)
    ensures !FilesIntact(RunFrom(P, Step(P, s, RegisterFile(c)), es).core.server)
  {
    var terms, fh := s.clients[c].terms, FileHash(s.clients[c].chunks);
    var i :| 0 <= i < |terms| && Doomed(s.core, terms[i].xorb);
    var x := terms[i].xorb;
    var g :| g in s.core.collectors && x in s.core.collectors[g].todo;
    var t := Step(P, s, RegisterFile(c));
    assert t.core.server.files[fh].terms == terms;
    es := [];
    if s.core.collectors[g].deleting != Some(x) {
      es := CollectorReaches(P, t, g, x);
    }
    var lost := RunFrom(P, t, es).core.server;
    assert fh in lost.files && lost.files[fh].terms[i].xorb !in lost.blobs;
  }

  /** A registration is safe against every continuation of the running collections exactly when it
      names no doomed xorb. */
  lemma RegistrationGuardExact(P: Primitives, s: System, c: nat)
    requires Lawful(P) && Inv(P, s) && NamesOk(s) && AcceptedRegistration(s, c)
    ensures FreeToRegister(s.core, s.clients[c].terms)
       <==> forall es :: CollectorRun(es) ==> FilesIntact(RunFrom(P, Step(P, s, RegisterFile(c)), es).core.server)
  {
    hide Lawful, Step, RunFrom, FilesIntact, FreeToRegister, OffsetsMatchBlobs, DedupSound, IndexedStored, BlobsOwned,
      AllPendingOk, OneInserter, FilesOk, ClientsOk, NamesOk, CanRegister, ServerOk, CollectorsOk, CollectorRun;
    var t := Step(P, s, RegisterFile(c));
    if FreeToRegister(s.core, s.clients[c].terms) {
      StepKeeps(P, s, RegisterFile(c));
      NamesKept(P, s, RegisterFile(c));
      forall es | CollectorRun(es)
        ensures FilesIntact(RunFrom(P, t, es).core.server)
      {
        CollectorRunsAreGuarded(P, t, es);
        GuardedRunsKeepInv(P, t, es);
        InvServerOk(P, RunFrom(P, t, es));
        SafeServerKeepsFiles(P, RunFrom(P, t, es).core.server);
      }
    } else {
      var es := RegisterThenLose(P, s, c);
      assert CollectorRun(es);
    }
  }

  // ---- The same for uploads ----

  predicate UploadRun(u: nat, es: seq<Event>) {
    forall i :: 0 <= i < |es| ==> CollectorEvent(es[i]) || es[i] == FinishIndex(u)
  }

  /** Every upload under way still has its blob, and no blob is left without index or inserter. */
  ghost predicate UploadsIntact(k: Core) {
    BlobsOwned(k) && forall u :: u in k.pending ==> k.pending[u].hash in k.server.blobs
  }

  ghost predicate AcceptedUpload(P: Primitives, s: System, u: nat, hash: XorbHash, body: Bytes) {
    && u !in s.clients && u !in s.core.pending && hash !in s.core.server.blobs
    && P.validate(body, hash).Some?
  }

  /** The agent's next group is novel, can be packed and passes validation, and its key is free. */
  ghost predicate AcceptedNovel(P: Primitives, s: System, c: nat) {
    && c in s.clients && Walking(s.clients[c]) && AtGroup(s.clients[c]) && s.clients[c].locs[s.clients[c].i].None?
    && var group := NextGroup(s.clients[c]);
       && XorbHash(group) !in s.core.server.blobs && P.serialize(group).Some?
       && P.validate(P.serialize(group).value, XorbHash(group)).Some?
  }

  /** `e` stores a new blob under `hash`, with `u` to index it. */
  ghost predicate StoresNew(P: Primitives, s: System, e: Event, u: nat, hash: XorbHash) {
    && u !in s.core.pending && hash !in s.core.server.blobs
    && exists body, info :: Step(P, s, e).core == StoreBlob(s.core, u, hash, body, info)
  }

  lemma {:induction false} UploadRunsAreGuarded(P: Primitives, s: System, u: nat, es: seq<Event>)
    requires UploadRun(u, es)
    ensures GuardedFrom(P, s, es)
  {
    hide RunFrom;
    if |es| > 0 {
      UploadRunsAreGuarded(P, s, u, es[..|es| - 1]);
    }
  }

  lemma IndexStep(P: Primitives, t: System, u: nat)
    requires u in t.core.pending
    ensures Step(P, t, FinishIndex(u)).core == IndexBlob(t.core, u)
  {
    hide IndexBlob, Advance, AtGroup;
  }

  lemma EvictStep(P: Primitives, t: System, g: nat)
    requires g in t.core.collectors && t.core.collectors[g].deleting.Some?
    ensures Step(P, t, GcEvict(g)).core == EvictDeleted(t.core, g)
  {
    hide EvictDeleted;
  }

  lemma IndexBlobFrame(k: Core, u: nat)
    requires u in k.pending
    ensures var k' := IndexBlob(k, u);
            k'.server.blobs == k.server.blobs && k'.collectors == k.collectors && k'.pending == k.pending - {u}
  {
    hide ServerModel.IndexChunks;
  }

  lemma IndexThenEvict(P: Primitives, t: System, u: nat, g: nat)
    requires u in t.core.pending && g in t.core.collectors && t.core.collectors[g].deleting.Some?
    ensures var k := Step(P, Step(P, t, FinishIndex(u)), GcEvict(g)).core; var x := t.core.collectors[g].deleting.value;
            && k.server.blobs == t.core.server.blobs && x !in k.server.xorbs && k.pending == t.core.pending - {u}
            && k.collectors == t.core.collectors[g := Collector(t.core.collectors[g].todo - {x}, None)]
  {
    hide Step, IndexBlob;
    IndexStep(P, t, u);
    IndexBlobFrame(t.core, u);
    EvictStep(P, Step(P, t, FinishIndex(u)), g);
  }

  lemma OrphanedByEvict(P: Primitives, s: System, u: nat, hash: XorbHash, g: nat)
    requires u in s.core.pending && s.core.pending[u].hash == hash && hash in s.core.server.blobs
    requires forall v :: v in s.core.pending && s.core.pending[v].hash == hash ==> v == u
    requires g in s.core.collectors && s.core.collectors[g].deleting == Some(hash)
    ensures !UploadsIntact(RunFrom(P, s, [FinishIndex(u), GcEvict(g)]).core)
  {
    hide Step, RunFrom;
    RunTwo(P, s, FinishIndex(u), GcEvict(g));
    IndexThenEvict(P, s, u, g);
    var k := RunFrom(P, s, [FinishIndex(u), GcEvict(g)]).core;
    assert hash in k.server.blobs && hash !in k.server.xorbs;
    assert forall v :: v in k.pending ==> v in s.core.pending && v != u && k.pending[v] == s.core.pending[v];
  }

  /** Collector and index steps that lose what was stored under a doomed key. */
  lemma StoreThenLose(P: Primitives, s: System, e: Event, u: nat, hash: XorbHash) returns (es: seq<Event>)
    requires AllPendingOk(P, s.core) && StoresNew(P, s, e, u, hash) && Doomed(s.core, hash)
    ensures UploadRun(u, es)
    ensures !UploadsIntact(RunFrom(P, Step(P, s, e), es).core)
  {
    hide Describes, BlobsOwned, RunFrom, Step;
    var t := Step(P, s, e);
    var g :| g in s.core.collectors && hash in s.core.collectors[g].todo;
    if s.core.collectors[g].deleting == Some(hash) {
      es := [FinishIndex(u), GcEvict(g)];
      forall v | v in t.core.pending && t.core.pending[v].hash == hash
        ensures v == u
      {
        if v != u { NoInserterWithoutBlob(P, s.core, v); }
      }
      OrphanedByEvict(P, t, u, hash, g);
    } else {
      es := CollectorReaches(P, t, g, hash);
      var k := RunFrom(P, t, es).core;
      assert k.pending[u].hash == hash;
    }
  }

  lemma StoreSafeIff(P: Primitives, s: System, e: Event, u: nat, hash: XorbHash)
    requires Lawful(P) && Inv(P, s) && NamesOk(s) && StoresNew(P, s, e, u, hash)
    requires !Doomed(s.core, hash) ==> Guard(s, e)
    ensures !Doomed(s.core, hash)
       <==> forall es :: UploadRun(u, es) ==> UploadsIntact(RunFrom(P, Step(P, s, e), es).core)
  {
    hide Lawful, Step, RunFrom, UploadsIntact, OffsetsMatchBlobs, DedupSound, IndexedStored, Guard, StoresNew,
      AllPendingOk, OneInserter, FilesOk, ClientsOk, NamesOk, CollectorsOk, Doomed, UploadRun, BlobsOwned;
    var t := Step(P, s, e);
    if !Doomed(s.core, hash) {
      StepKeeps(P, s, e);
      NamesKept(P, s, e);
      forall es | UploadRun(u, es)
        ensures UploadsIntact(RunFrom(P, t, es).core)
      {
        UploadRunsAreGuarded(P, t, u, es);
        GuardedRunsKeepInv(P, t, es);
        InvKeepsUploads(P, RunFrom(P, t, es).core);
      }
    } else {
      var es := StoreThenLose(P, s, e, u, hash);
      assert UploadRun(u, es);
    }
  }

  /** Storing a new blob is safe against every continuation of the collections and its own index step
      exactly when its key is not doomed. */
  lemma UploadGuardExact(P: Primitives, s: System, u: nat, hash: XorbHash, body: Bytes)
    requires Lawful(P) && Inv(P, s) && NamesOk(s) && AcceptedUpload(P, s, u, hash, body)
    ensures !Doomed(s.core, hash)
       <==> forall es :: UploadRun(u, es) ==>
         UploadsIntact(RunFrom(P, Step(P, s, StoreForeign(u, hash, body)), es).core)
  {
    hide Lawful, Inv, NamesOk, Doomed, RunFrom, UploadsIntact, UploadRun;
    var e := StoreForeign(u, hash, body);
    assert Step(P, s, e).core == StoreBlob(s.core, u, hash, body, P.validate(body, hash).value);
    assert StoresNew(P, s, e, u, hash);
    StoreSafeIff(P, s, e, u, hash);
  }

  /** The same for the next novel group of an agent. */
  lemma NovelUploadGuardExact(P: Primitives, s: System, c: nat)
    requires Lawful(P) && Inv(P, s) && NamesOk(s) && AcceptedNovel(P, s, c)
    ensures !Doomed(s.core, XorbHash(NextGroup(s.clients[c])))
       <==> forall es :: UploadRun(c, es) ==> UploadsIntact(RunFrom(P, Step(P, s, StoreNovel(c)), es).core)
  {
    hide Lawful, Inv, Doomed, RunFrom, UploadsIntact, UploadRun, GroupEnd;
    var e, group := StoreNovel(c), NextGroup(s.clients[c]);
    var hash, body := XorbHash(group), P.serialize(group).value;
    assert Step(P, s, e).core == StoreBlob(s.core, c, hash, body, P.validate(body, hash).value);
    assert StoresNew(P, s, e, c, hash);
    StoreSafeIff(P, s, e, c, hash);
  }

  // ---- A blob nothing will ever index ----

  /** Stored, not indexed, with no inserter and no collection about to delete it. */
  ghost predicate Poisoned(k: Core, x: XorbHash) {
    && x in k.server.blobs && x !in k.server.xorbs && !Doomed(k, x)
    && forall u :: u in k.pending ==> k.pending[u].hash != x
  }

  lemma PoisonStays(P: Primitives, s: System, e: Event, x: XorbHash)
    requires Poisoned(s.core, x)
    ensures Poisoned(Step(P, s, e).core, x)
  {
    hide GroupEnd, TermFor, ServerModel.IndexChunks, CanRegister;
  }

  /** Once poisoned, always poisoned, in every run; no record that names the xorb is ever accepted. */
  lemma {:induction false} PoisonedForEver(P: Primitives, s: System, es: seq<Event>, x: XorbHash)
    requires Poisoned(s.core, x)
    ensures var k := RunFrom(P, s, es).core;
            && Poisoned(k, x)
            && forall terms: seq<Term>, i :: 0 <= i < |terms| && terms[i].xorb == x ==> !CanRegister(k.server, terms)
  {
    hide Step, Doomed;
    if |es| > 0 {
      PoisonedForEver(P, s, es[..|es| - 1], x);
      PoisonStays(P, RunFrom(P, s, es[..|es| - 1]), es[|es| - 1], x);
    }
  }

  /** An upload in the window between the delete and the evict of the only collection that marked its
      key leaves such a blob. */
  lemma WindowUploadPoisons(P: Primitives, s: System, e: Event, u: nat, hash: XorbHash, g: nat)
    requires AllPendingOk(P, s.core) && StoresNew(P, s, e, u, hash)
    requires g in s.core.collectors && s.core.collectors[g].deleting == Some(hash)
    requires forall h :: h in s.core.collectors && hash in s.core.collectors[h].todo ==> h == g
    ensures Poisoned(RunFrom(P, Step(P, s, e), [FinishIndex(u), GcEvict(g)]).core, hash)
  {
    hide GroupEnd, TermFor, ServerModel.IndexChunks, Describes, Step, RunFrom;
    var t := Step(P, s, e);
    forall v | v in t.core.pending && t.core.pending[v].hash == hash
      ensures v == u
    {
      if v != u { NoInserterWithoutBlob(P, s.core, v); }
    }
    RunTwo(P, t, FinishIndex(u), GcEvict(g));
    IndexThenEvict(P, t, u, g);
    var k := RunFrom(P, t, [FinishIndex(u), GcEvict(g)]).core;
    assert forall v :: v in k.pending ==> v in t.core.pending && v != u && k.pending[v] == t.core.pending[v];
  }

  lemma InvKeepsUploads(P: Primitives, k: Core)
    requires CoreInv(P, k)
    ensures UploadsIntact(k)
  {
    hide Describes, OffsetsMatchBlobs, DedupSound, FilesOk, BlobsOwned;
    forall u | u in k.pending
      ensures k.pending[u].hash in k.server.blobs
    {
      assert PendingOk(P, k, k.pending[u]);
    }
  }
}
