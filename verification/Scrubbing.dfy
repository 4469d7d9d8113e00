/** What a scrub can find.  Blobs are validated before they are stored and never overwritten, so the
    only damage is a blob that collection has deleted. */
module Scrubbing {
  import opened XorbFormat
  import opened ServerModel
  import opened Planner
  import opened Protocol

  ghost predicate BlobsValid(P: Primitives, s: State) {
    forall x :: x in s.blobs ==> P.validate(s.blobs[x], x).Some?
  }

  lemma BlobsValidKept(P: Primitives, s: System, e: Event)
    requires BlobsValid(P, s.core.server)
    ensures BlobsValid(P, Step(P, s, e).core.server)
  {
    hide GroupEnd, TermFor, ServerModel.IndexChunks, CanRegister, Unreferenced;
  }

  /** In every run, guarded or not, every stored blob still passes the gate it was let in by, so that a
      scrub finds exactly the indexed xorbs that have no blob. */
  lemma {:induction false} EveryRunKeepsBlobsValid(P: Primitives, es: seq<Event>)
    ensures BlobsValid(P, Run(P, es).core.server)
    ensures Damaged(P, Run(P, es).core.server) == Run(P, es).core.server.xorbs.Keys - Run(P, es).core.server.blobs.Keys
  {
    hide Step;
    if |es| > 0 {
      EveryRunKeepsBlobsValid(P, es[..|es| - 1]);
      BlobsValidKept(P, Run(P, es[..|es| - 1]), es[|es| - 1]);
    }
  }

  /** In a guarded run that is only what a collection is deleting at that moment: nothing at all while
      none runs, and never a xorb of a registered file. */
  lemma GuardedScrub(P: Primitives, es: seq<Event>)
    requires Lawful(P) && Guarded(P, es)
    ensures var k := Run(P, es).core;
            && (forall x :: x in Damaged(P, k.server) ==> Doomed(k, x))
            && Damaged(P, k.server) !! Referenced(k.server.files)
            && (k.collectors == map[] ==> Damaged(P, k.server) == {})
  {
    hide Lawful, RunFrom, GuardedFrom, Damaged, Doomed, OffsetsMatchBlobs, DedupSound, BlobsOwned, AllPendingOk,
      OneInserter, CollectorsOk, ClientsOk, NamesOk, RecordOk;
    EveryRunKeepsBlobsValid(P, es);
    InitialInv(P);
    GuardedRunsKeepInv(P, INITIAL, es);
    var k := Run(P, es).core;
    forall x | x in Referenced(k.server.files)
      ensures x in k.server.blobs
    {
      var fh, t :| fh in k.server.files && t in k.server.files[fh].terms && t.xorb == x;
      assert FileOk(P, k, fh, k.server.files[fh]);
      assert !Doomed(k, x) && x in k.server.xorbs;
    }
    NoCollectorsNoDoom(k);
  }

  lemma NoCollectorsNoDoom(k: Core)
    ensures k.collectors == map[] ==> forall x :: !Doomed(k, x)
  {
  }
}
