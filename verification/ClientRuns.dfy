/** What the events of a run say of its clients: the bytes and the path a client was started with are what
    it chunks, plans, registers and is listed under. */
module ClientRuns {
  import opened Basics
  import opened XorbFormat
  import opened ServerModel
  import opened Planner
  import opened Agent
  import opened Protocol
  import opened DedupHistory

  // ---- Input ----

  /** Event `a` started client `c`: its name was free then. */
  ghost predicate Took(P: Primitives, es: seq<Event>, a: nat, c: nat, bytes: Bytes, key: CatalogKey) {
    && a < |es| && es[a] == Start(c, bytes, key)
    && c !in Run(P, es[..a]).clients && c !in Run(P, es[..a]).core.pending
  }

  lemma RunStep(P: Primitives, es: seq<Event>, i: nat)
    requires i < |es|
    ensures Run(P, es[..i + 1]) == Step(P, Run(P, es[..i]), es[i])
  {
    hide Step;
    assert es[..i + 1][..i] == es[..i];
  }

  /** No step changes what a client was started with. */
  lemma InputStays(P: Primitives, s: System, e: Event, c: nat)
    requires c in s.clients
    ensures var t := Step(P, s, e);
            c in t.clients && t.clients[c].chunks == s.clients[c].chunks && t.clients[c].key == s.clients[c].key
  {
    hide GroupEnd, TermFor, IndexBlob, StoreBlob, CanRegister, Register, Unreferenced, Lookup;
  }

  lemma StartStep(P: Primitives, s: System, c: nat, bytes: Bytes, key: CatalogKey)
    requires c !in s.clients && c !in s.core.pending
    ensures var t := Step(P, s, Start(c, bytes, key));
            c in t.clients && t.clients[c].chunks == P.chunker(bytes) && t.clients[c].key == key
  {
  }

  /** At every later moment a client works on the chunks of all its input, for its own path. */
  lemma {:induction false} ClientKeepsInput(
    P: Primitives, es: seq<Event>, a: nat, c: nat, bytes: Bytes, key: CatalogKey, n: nat)
    requires Took(P, es, a, c, bytes, key) && a < n <= |es|
    ensures var s := Run(P, es[..n]);
            c in s.clients && s.clients[c].chunks == P.chunker(bytes) && s.clients[c].key == key
    decreases n
  {
    hide RunFrom, Step;
    RunStep(P, es, n - 1);
    if n == a + 1 {
      StartStep(P, Run(P, es[..a]), c, bytes, key);
    } else {
      ClientKeepsInput(P, es, a, c, bytes, key, n - 1);
      InputStays(P, Run(P, es[..n - 1]), es[n - 1], c);
    }
  }

  lemma ClientsComeFromStart(P: Primitives, s: System, e: Event, c: nat)
    requires c in Step(P, s, e).clients && c !in s.clients
    ensures e.Start? && e.c == c && c !in s.core.pending
  {
    hide GroupEnd, TermFor, IndexBlob, StoreBlob, CanRegister, Register, Unreferenced, Lookup;
  }

  /** Every client was started by some event. */
  lemma {:induction false} EveryClientStarted(P: Primitives, es: seq<Event>, c: nat, n: nat)
    returns (a: nat, bytes: Bytes)
    requires n <= |es| && c in Run(P, es[..n]).clients
    ensures a < n && Took(P, es, a, c, bytes, Run(P, es[..n]).clients[c].key)
    decreases n
  {
    hide RunFrom, Step;
    if n == 0 {
      assert Run(P, es[..0]) == INITIAL by { RunNothing(P, es); }
    } else {
      RunStep(P, es, n - 1);
      var s := Run(P, es[..n - 1]);
      if c in s.clients {
        a, bytes := EveryClientStarted(P, es, c, n - 1);
        InputStays(P, s, es[n - 1], c);
      } else {
        ClientsComeFromStart(P, s, es[n - 1], c);
        a, bytes := n - 1, es[n - 1].bytes;
        StartStep(P, s, c, bytes, es[n - 1].key);
      }
    }
  }

  lemma RunNothing(P: Primitives, es: seq<Event>)
    ensures Run(P, es[..0]) == INITIAL
  {
  }

  // ---- Registration ----

  /** Event `i` is the registration with which client `c` reports success. */
  ghost predicate Succeeds(P: Primitives, es: seq<Event>, i: nat, c: nat) {
    && i < |es| && es[i] == RegisterFile(c) && c in Run(P, es[..i]).clients && c in Run(P, es[..i + 1]).clients
    && !Run(P, es[..i]).clients[c].phase.Done? && Run(P, es[..i + 1]).clients[c].phase.Done?
  }

  /** A client whose walk is over succeeds exactly if every xorb of its terms is indexed at that moment. */
  lemma RegistrationOutcome(P: Primitives, es: seq<Event>, i: nat, c: nat)
    requires i < |es| && es[i] == RegisterFile(c) && c in Run(P, es[..i]).clients
    requires var client := Run(P, es[..i]).clients[c];
             client.phase.Running? && |client.locs| == |client.chunks| == client.i
    ensures Succeeds(P, es, i, c) <==>
            forall k :: 0 <= k < |Run(P, es[..i]).clients[c].terms| ==>
              Run(P, es[..i]).clients[c].terms[k].xorb in Run(P, es[..i]).core.server.xorbs
  {
    hide RunFrom, Step;
    RunStep(P, es, i);
    var s := Run(P, es[..i]);
    RegisterStep(P, s, c);
    CanRegisterMeans(s.core.server, s.clients[c].terms);
  }

  lemma CanRegisterMeans(s: State, terms: seq<Term>)
    ensures CanRegister(s, terms) <==> forall k :: 0 <= k < |terms| ==> terms[k].xorb in s.xorbs
  {
    if forall k :: 0 <= k < |terms| ==> terms[k].xorb in s.xorbs {
      forall t | t in terms
        ensures t.xorb in s.xorbs
      {
        var k :| 0 <= k < |terms| && terms[k] == t;
      }
    }
    if CanRegister(s, terms) {
      forall k | 0 <= k < |terms|
        ensures terms[k].xorb in s.xorbs
      {
        assert terms[k] in terms;
      }
    }
  }

  lemma RegisterStep(P: Primitives, s: System, c: nat)
    requires c in s.clients && Walking(s.clients[c]) && s.clients[c].i == |s.clients[c].chunks|
    ensures var t, client := Step(P, s, RegisterFile(c)), s.clients[c];
            && c in t.clients && (t.clients[c].phase.Done? <==> CanRegister(s.core.server, client.terms))
            && (t.clients[c].phase.Done? ==>
                  && t.core.server.catalog == s.core.server.catalog[client.key := FileHash(client.chunks)]
                  && t.core.server.files == s.core.server.files[
                       FileHash(client.chunks) := FileRecord(TotalLen(client.chunks), client.terms)])
            && (!t.clients[c].phase.Done? ==> t.core == s.core)
  {
    hide CanRegister, TotalLen;
  }

  /** What a step does to the catalog: nothing, unless a client succeeds, whose path then has its hash. */
  lemma CatalogStep(P: Primitives, es: seq<Event>, i: nat)
    requires i < |es|
    ensures var s, t := Run(P, es[..i]), Run(P, es[..i + 1]);
            if exists c :: Succeeds(P, es, i, c) then
              es[i].RegisterFile? && es[i].c in s.clients
              && var client := s.clients[es[i].c];
                 t.core.server.catalog == s.core.server.catalog[client.key := FileHash(client.chunks)]
            else t.core.server.catalog == s.core.server.catalog
  {
    hide RunFrom, Step;
    RunStep(P, es, i);
    var s, e := Run(P, es[..i]), es[i];
    if e.RegisterFile? && e.c in s.clients && Walking(s.clients[e.c]) && s.clients[e.c].i == |s.clients[e.c].chunks| {
      RegisterStep(P, s, e.c);
      assert Step(P, s, e).clients[e.c].phase.Done? ==> Succeeds(P, es, i, e.c);
    } else {
      OtherCatalog(P, s, e);
    }
  }

  lemma OtherCatalog(P: Primitives, s: System, e: Event)
    requires e.RegisterFile? && e.c in s.clients ==>
               !(Walking(s.clients[e.c]) && s.clients[e.c].i == |s.clients[e.c].chunks|)
    ensures Step(P, s, e).core.server.catalog == s.core.server.catalog
    ensures e.RegisterFile? ==> Step(P, s, e) == s
  {
    hide GroupEnd, TermFor, ServerModel.IndexChunks, Unreferenced, Lookup;
  }

  /** The client that succeeded at event `i` had been started for path `key`. */
  ghost predicate SucceedsFor(P: Primitives, es: seq<Event>, i: nat, key: CatalogKey) {
    i < |es| && exists c :: Succeeds(P, es, i, c) && Run(P, es[..i]).clients[c].key == key
  }

  /** Event `i` is the last success for `key` among the first `n`. */
  ghost predicate LastFor(P: Primitives, es: seq<Event>, i: nat, n: nat, key: CatalogKey) {
    i < n <= |es| && SucceedsFor(P, es, i, key) && forall j :: i < j < n ==> !SucceedsFor(P, es, j, key)
  }

  lemma {:induction false} EntryIsLastSuccess(P: Primitives, es: seq<Event>, key: CatalogKey, n: nat)
    requires n <= |es|
    ensures var catalog := Run(P, es[..n]).core.server.catalog;
            && (key in catalog ==> exists i: nat :: LastFor(P, es, i, n, key))
            && forall i: nat, c :: LastFor(P, es, i, n, key) && Succeeds(P, es, i, c) ==>
                 key in catalog && catalog[key] == FileHash(Run(P, es[..i]).clients[c].chunks)
    decreases n
  {
    hide RunFrom, Succeeds;
    var catalog := Run(P, es[..n]).core.server.catalog;
    if n == 0 {
      RunNothing(P, es);
    } else {
      EntryIsLastSuccess(P, es, key, n - 1);
      CatalogStep(P, es, n - 1);
      SucceedsMeans(P, es, n - 1);
      if SucceedsFor(P, es, n - 1, key) {
        assert LastFor(P, es, n - 1, n, key);
        forall i: nat, c | LastFor(P, es, i, n, key) && Succeeds(P, es, i, c)
          ensures key in catalog && catalog[key] == FileHash(Run(P, es[..i]).clients[c].chunks)
        {
          assert i == n - 1;
        }
      } else {
        forall i: nat
          ensures LastFor(P, es, i, n, key) <==> LastFor(P, es, i, n - 1, key)
        {
        }
        if key in catalog {
          var last := n - 1;
          assert key in Run(P, es[..last]).core.server.catalog by {
            if exists c :: Succeeds(P, es, last, c) {
              var c :| Succeeds(P, es, last, c);
              assert es[last].c == c;
            }
          }
          var i: nat :| LastFor(P, es, i, n - 1, key);
          assert LastFor(P, es, i, n, key);
        }
      }
    }
  }

  lemma SucceedsMeans(P: Primitives, es: seq<Event>, i: nat)
    ensures forall c :: Succeeds(P, es, i, c) ==> i < |es| && es[i] == RegisterFile(c) && c in Run(P, es[..i]).clients
  {
    hide RunFrom;
  }

  /** The catalog after any run, in terms of its events: a path has an entry exactly if some client started
      for it has succeeded, and the entry is the hash of all the bytes given to the last one that did. */
  lemma CatalogIsLastSuccess(
    P: Primitives, es: seq<Event>, a: nat, c: nat, bytes: Bytes, key: CatalogKey, i: nat)
    requires Took(P, es, a, c, bytes, key) && a < i && Succeeds(P, es, i, c)
    requires forall j :: i < j < |es| ==> !SucceedsFor(P, es, j, key)
    ensures key in Run(P, es).core.server.catalog
    ensures Run(P, es).core.server.catalog[key] == FileHash(P.chunker(bytes))
  {
    hide RunFrom, Succeeds;
    assert es[..|es|] == es;
    SucceedsMeans(P, es, i);
    ClientKeepsInput(P, es, a, c, bytes, key, i);
    assert SucceedsFor(P, es, i, key);
    assert LastFor(P, es, i, |es|, key);
    EntryIsLastSuccess(P, es, key, |es|);
  }

  lemma EntryHasClient(P: Primitives, es: seq<Event>, key: CatalogKey)
    returns (a: nat, c: nat, bytes: Bytes, i: nat)
    requires key in Run(P, es).core.server.catalog
    ensures a < i < |es| && Took(P, es, a, c, bytes, key) && Succeeds(P, es, i, c)
    ensures forall j :: i < j < |es| ==> !SucceedsFor(P, es, j, key)
  {
    hide RunFrom, Succeeds;
    assert es[..|es|] == es;
    EntryIsLastSuccess(P, es, key, |es|);
    i :| LastFor(P, es, i, |es|, key);
    SucceedsMeans(P, es, i);
    c :| Succeeds(P, es, i, c) && Run(P, es[..i]).clients[c].key == key;
    a, bytes := EveryClientStarted(P, es, c, i);
  }

  /** A client that has reported success has registered all its input: the content hash of the bytes it was
      started with is registered, from then on. */
  lemma DoneMeansRegistered(P: Primitives, es: seq<Event>, a: nat, c: nat, bytes: Bytes, key: CatalogKey)
    requires LawfulChunker(P) && Took(P, es, a, c, bytes, key)
    ensures var s := Run(P, es);
            && c in s.clients
            && (s.clients[c].phase.Done? ==>
                  FileHash(P.chunker(bytes)) in s.core.server.files && Flatten(P.chunker(bytes)) == bytes)
  {
    hide RunFrom, Flatten;
    assert es[..|es|] == es;
    ClientKeepsInput(P, es, a, c, bytes, key, |es|);
    FinishedClientsAreRegistered(P, es);
  }

  // ---- Answers and plans ----

  /** The next answer a client gets is that of a plain scan of the xorbs indexed since its chunk was last
      forgotten, as they are at the moment of its query. */
  lemma AnswerOfItsMoment(P: Primitives, es: seq<Event>, i: nat, c: nat)
    requires Lawful(P) && i < |es| && es[i] == Query(c) && c in Run(P, es[..i]).clients
    requires var client := Run(P, es[..i]).clients[c]; client.phase.Running? && |client.locs| < |client.chunks|
    ensures var client, asked := Run(P, es[..i]).clients[c], Run(P, es[..i + 1]);
            && c in asked.clients
            && var chunk := client.chunks[|client.locs|];
               asked.clients[c].locs == client.locs + [Scan(Recent(History(P, es[..i]), chunk), chunk)]
  {
    hide RunFrom, Lawful, Scan, Recent, History, Lookup;
    RunStep(P, es, i);
    var client := Run(P, es[..i]).clients[c];
    EveryRunAnswers(P, es[..i], client.chunks[|client.locs|]);
  }

  /** The terms so far and the plan for the rest make up the plan for the whole file. */
  ghost predicate OnPlan(c: Client) {
    && |c.locs| <= |c.chunks| && c.i <= |c.chunks|
    && (|c.locs| < |c.chunks| ==> c.i == 0 && c.terms == [])
    && (|c.locs| == |c.chunks| ==> c.terms + Plan(c.chunks, c.locs, c.i) == Plan(c.chunks, c.locs, 0))
  }

  ghost predicate AllOnPlan(s: System) {
    forall c :: c in s.clients ==> OnPlan(s.clients[c])
  }

  lemma AdvanceOnPlan(c: Client)
    requires OnPlan(c) && AtGroup(c)
    ensures OnPlan(Advance(c))
  {
    hide GroupEnd, TermFor;
    var j := GroupEnd(c.chunks, c.locs, c.i);
    var t := TermFor(c.chunks, c.locs, c.i, j);
    AppendAssociates(c.terms, [t], Plan(c.chunks, c.locs, j));
  }

  lemma StepOnPlan(P: Primitives, s: System, e: Event)
    requires AllOnPlan(s)
    ensures AllOnPlan(Step(P, s, e))
  {
    hide Advance, OnPlan, AtGroup, StoreBlob, IndexBlob, CanRegister, Register, Unreferenced, Lookup, GroupEnd;
    match e {
      case Start(c, bytes, key) => StartOnPlan(P.chunker(bytes), key);
      case Query(c) =>
        if c in s.clients && |s.clients[c].locs| < |s.clients[c].chunks| {
          QueryOnPlan(s.clients[c], Lookup(s.core.server, s.clients[c].chunks[|s.clients[c].locs|]));
        }
      case EmitKnown(c) =>
        if c in s.clients && AtGroup(s.clients[c]) { AdvanceOnPlan(s.clients[c]); }
      case StoreNovel(c) =>
        if c in s.clients && AtGroup(s.clients[c]) { AdvanceOnPlan(s.clients[c]); }
        if c in s.clients { PhaseOnPlan(s.clients[c]); }
      case FinishIndex(u) =>
        if u in s.clients && AtGroup(s.clients[u]) { AdvanceOnPlan(s.clients[u]); }
      case RegisterFile(c) =>
        if c in s.clients { PhaseOnPlan(s.clients[c]); }
      case _ =>
    }
  }

  lemma StartOnPlan(chunks: seq<Chunk>, key: CatalogKey)
    ensures OnPlan(Client(chunks, key, [], 0, [], Running))
  {
  }

  lemma QueryOnPlan(c: Client, answer: Option<Hit>)
    requires OnPlan(c) && |c.locs| < |c.chunks|
    ensures OnPlan(c.(locs := c.locs + [answer]))
  {
  }

  lemma PhaseOnPlan(c: Client)
    requires OnPlan(c)
    ensures forall phase :: OnPlan(c.(phase := phase))
  {
  }

  lemma {:induction false} RunOnPlan(P: Primitives, es: seq<Event>)
    ensures AllOnPlan(Run(P, es))
  {
    hide Step, OnPlan;
    if |es| > 0 {
      RunOnPlan(P, es[..|es| - 1]);
      StepOnPlan(P, Run(P, es[..|es| - 1]), es[|es| - 1]);
    }
  }

  /** What a success registers: under the hash of all the input, the planner's own terms for the answers the
      client got, with the input's length as size. */
  lemma SuccessRegistersPlan(P: Primitives, es: seq<Event>, a: nat, c: nat, bytes: Bytes, key: CatalogKey, i: nat)
    requires LawfulChunker(P) && Took(P, es, a, c, bytes, key) && a < i && Succeeds(P, es, i, c)
    ensures var client, files := Run(P, es[..i]).clients[c], Run(P, es[..i + 1]).core.server.files;
            && |client.locs| == |P.chunker(bytes)| && FileHash(P.chunker(bytes)) in files
            && files[FileHash(P.chunker(bytes))] == FileRecord(|bytes|, Plan(P.chunker(bytes), client.locs, 0))
  {
    hide RunFrom, Step, OnPlan, Flatten, TotalLen;
    var s := Run(P, es[..i]);
    RunStep(P, es, i);
    ClientKeepsInput(P, es, a, c, bytes, key, i);
    SuccessWalked(P, s, c);
    RegisterStep(P, s, c);
    RunOnPlan(P, es[..i]);
    WalkedPlan(s.clients[c]);
    FlattenLength(P.chunker(bytes));
  }

  lemma SuccessWalked(P: Primitives, s: System, c: nat)
    requires c in s.clients && !s.clients[c].phase.Done?
    requires c in Step(P, s, RegisterFile(c)).clients && Step(P, s, RegisterFile(c)).clients[c].phase.Done?
    ensures Walking(s.clients[c]) && s.clients[c].i == |s.clients[c].chunks|
  {
    hide CanRegister, Register;
  }

  lemma WalkedPlan(c: Client)
    requires OnPlan(c) && |c.locs| == |c.chunks| == c.i
    ensures c.terms == Plan(c.chunks, c.locs, 0)
  {
    assert Plan(c.chunks, c.locs, c.i) == [];
    assert c.terms + [] == c.terms;
  }
}
