/** One collection among all the other traffic of a guarded run: what it removes between its mark and its
    end, and that no read can tell it is running. */
module Collection {
  import opened Basics
  import opened XorbFormat
  import opened ServerModel
  import opened Xetd
  import opened Planner
  import opened Reading
  import opened Protocol
  import opened GuardExactness
  import opened InFlight

  // ---- Reads ----

  lemma CollectorKeepsFiles(P: Primitives, s: System, e: Event)
    requires CollectorEvent(e)
    ensures Guard(s, e) && Step(P, s, e).core.server.files == s.core.server.files
  {
    hide Unreferenced;
  }

  lemma SameFilesReadSame(P: Primitives, s: State, t: State, fh: FileHash)
    requires ServerOk(P, s) && ServerOk(P, t) && t.files == s.files
    ensures ReadBack(P, t, fh) == ReadBack(P, s, fh)
  {
    hide ServerOk, Reassembled, CanRegister, ReadUpTo;
    if fh in s.files {
      ReadBackIsReassembled(P, s, fh);
      ReadBackIsReassembled(P, t, fh);
    }
  }

  /** In a guarded run no step of any collection changes what any read gives. */
  lemma CollectionStepsUnseen(P: Primitives, es: seq<Event>, i: nat, fh: FileHash)
    requires Lawful(P) && Guarded(P, es) && i < |es| && CollectorEvent(es[i])
    ensures ReadBack(P, At(P, es, i + 1).server, fh) == ReadBack(P, At(P, es, i).server, fh)
  {
    hide Lawful, GuardedFrom, RunFrom, Inv, ServerOk, ReadBack, Step;
    InvAt(P, es, i);
    InvAt(P, es, i + 1);
    AtStep(P, es, i);
    CollectorKeepsFiles(P, Run(P, es[..i]), es[i]);
    SameFilesReadSame(P, At(P, es, i).server, At(P, es, i + 1).server, fh);
  }

  // ---- What one collection removes ----

  /** Collector `g` starts at moment `a` and is still there at moment `b`. */
  ghost predicate Collects(P: Primitives, es: seq<Event>, g: nat, a: nat, b: nat) {
    && a < b <= |es| && es[a] == GcMark(g) && g !in At(P, es, a).collectors
    && forall i :: a < i <= b ==> g in At(P, es, i).collectors
  }

  /** What it marked. */
  ghost function Marked(P: Primitives, es: seq<Event>, a: nat): set<XorbHash>
    requires a <= |es|
  {
    Unreferenced(At(P, es, a).server)
  }

  /** Not stored and not indexed. */
  ghost predicate Gone(s: State, x: XorbHash) {
    x !in s.blobs && x !in s.xorbs
  }

  ghost predicate GoneBetween(P: Primitives, es: seq<Event>, a: nat, b: nat, x: XorbHash)
    requires b <= |es|
  {
    exists i :: a < i <= b && Gone(At(P, es, i).server, x)
  }

  lemma TodoStep(P: Primitives, s: System, e: Event, g: nat)
    requires g in s.core.collectors && g in Step(P, s, e).core.collectors
    ensures var todo, todo' := s.core.collectors[g].todo, Step(P, s, e).core.collectors[g].todo;
            && todo' <= todo
            && forall x :: x in todo && x !in todo' ==>
                 e == GcEvict(g) && s.core.collectors[g].deleting == Some(x) && x !in Step(P, s, e).core.server.xorbs
                 && Step(P, s, e).core.server.blobs == s.core.server.blobs
  {
    hide Unreferenced, GroupEnd, TermFor, ServerModel.IndexChunks, CanRegister;
  }

  lemma MarkStep(P: Primitives, s: System, g: nat)
    requires g !in s.core.collectors
    ensures var k := Step(P, s, GcMark(g)).core;
            g in k.collectors && k.collectors[g].todo == Unreferenced(s.core.server)
  {
    hide Unreferenced;
  }

  /** At every moment of a collection, each marked xorb is still to be evicted or has been gone. */
  lemma {:induction false} MarkedIsTodoOrGone(P: Primitives, es: seq<Event>, g: nat, a: nat, b: nat)
    requires Lawful(P) && Guarded(P, es) && Collects(P, es, g, a, b)
    ensures At(P, es, b).collectors[g].todo <= Marked(P, es, a)
    ensures forall x :: x in Marked(P, es, a) ==>
              x in At(P, es, b).collectors[g].todo || GoneBetween(P, es, a, b, x)
    decreases b
  {
    hide Lawful, GuardedFrom, RunFrom, Step, Unreferenced, Gone, Inv;
    if b == a + 1 {
      AtStep(P, es, a);
      MarkStep(P, Run(P, es[..a]), g);
    } else {
      MarkedIsTodoOrGone(P, es, g, a, b - 1);
      AtStep(P, es, b - 1);
      var s := Run(P, es[..b - 1]);
      assert g in At(P, es, b - 1).collectors && g in At(P, es, b).collectors;
      TodoStep(P, s, es[b - 1], g);
      InvAt(P, es, b - 1);
      forall x | x in Marked(P, es, a) && x !in At(P, es, b).collectors[g].todo
        ensures GoneBetween(P, es, a, b, x)
      {
        if x in At(P, es, b - 1).collectors[g].todo {
          DeletingIsGone(P, s, es[b - 1], g, x);
          assert Gone(At(P, es, b).server, x);
        } else {
          var i :| a < i <= b - 1 && Gone(At(P, es, i).server, x);
        }
      }
    }
  }

  lemma DeletingIsGone(P: Primitives, s: System, e: Event, g: nat, x: XorbHash)
    requires Inv(P, s) && g in s.core.collectors && s.core.collectors[g].deleting == Some(x)
    requires var t := Step(P, s, e).core.server; x !in t.xorbs && t.blobs == s.core.server.blobs
    ensures Gone(Step(P, s, e).core.server, x)
  {
    hide Step, OffsetsMatchBlobs, DedupSound, IndexedStored, BlobsOwned, AllPendingOk, OneInserter, FilesOk, ClientsOk;
  }

  /** A collection that comes to its end in a guarded run has removed exactly what it marked: every
      marked xorb has been gone from store and index in between, and no step of the collection took
      anything else away. */
  lemma CollectionExact(P: Primitives, es: seq<Event>, g: nat, a: nat, b: nat)
    requires Lawful(P) && Guarded(P, es) && Collects(P, es, g, a, b) && At(P, es, b).collectors[g].todo == {}
    ensures forall x :: x in Marked(P, es, a) <==>
              x in At(P, es, a).server.xorbs && !Names(At(P, es, a).server.files, x)
    ensures forall x :: x in Marked(P, es, a) ==> GoneBetween(P, es, a, b, x)
    ensures forall i, x :: a < i < b && OwnStep(es[i], g) && TakenAt(P, es, i, x) ==> x in Marked(P, es, a)
  {
    hide Lawful, GuardedFrom, RunFrom, Step, Unreferenced, Gone, Inv, At, OwnStep, Taken, Names;
    MarkedIsTodoOrGone(P, es, g, a, b);
    DeadMeans(At(P, es, a).server);
    forall i, x | a < i < b && OwnStep(es[i], g) && TakenAt(P, es, i, x)
      ensures x in Marked(P, es, a)
    {
      assert Collects(P, es, g, a, i);
      MarkedIsTodoOrGone(P, es, g, a, i);
      InvAt(P, es, i);
      AtStep(P, es, i);
      AtIsRun(P, es, i);
      AtIsRun(P, es, i + 1);
      OwnStepRemoves(P, Run(P, es[..i]), es[i], g, x);
    }
  }

  predicate OwnStep(e: Event, g: nat) {
    e == GcEvict(g) || (e.GcDelete? && e.g == g)
  }

  /** Removed from store or index. */
  ghost predicate Taken(s: State, t: State, x: XorbHash) {
    (x in s.blobs && x !in t.blobs) || (x in s.xorbs && x !in t.xorbs)
  }

  ghost predicate TakenAt(P: Primitives, es: seq<Event>, i: nat, x: XorbHash)
    requires i < |es|
  {
    Taken(At(P, es, i).server, At(P, es, i + 1).server, x)
  }

  lemma OwnStepRemoves(P: Primitives, s: System, e: Event, g: nat, x: XorbHash)
    requires Inv(P, s) && OwnStep(e, g) && g in s.core.collectors
    requires Taken(s.core.server, Step(P, s, e).core.server, x)
    ensures x in s.core.collectors[g].todo
  {
    hide OffsetsMatchBlobs, DedupSound, IndexedStored, BlobsOwned, AllPendingOk, OneInserter, FilesOk, ClientsOk;
  }
}
