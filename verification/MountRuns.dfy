/** Runs of requests on a mount, against the plain file model. */
module MountRuns {
  import opened XorbFormat
  import opened PlainFiles
  import opened InodeTree
  import opened MountModel
  import opened MountSteps

  ghost function MountRun(P: Primitives, volume: string, m: Mounted, ops: seq<Op>): (Mounted, seq<Reply>) {
    if |ops| == 0 then (m, []) else
    var (t, replies) := MountRun(P, volume, m, ops[..|ops| - 1]);
    var (u, reply) := MountStep(P, volume, t, ops[|ops| - 1]);
    (u, replies + [reply])
  }

  /** The state after the first `n` requests. */
  ghost function After(P: Primitives, volume: string, m: Mounted, ops: seq<Op>, n: nat): Mounted
    requires n <= |ops|
  {
    MountRun(P, volume, m, ops[..n]).0
  }

  lemma AfterStep(P: Primitives, volume: string, m: Mounted, ops: seq<Op>, n: nat)
    requires n < |ops|
    ensures After(P, volume, m, ops, n + 1) == MountStep(P, volume, After(P, volume, m, ops, n), ops[n]).0
    ensures MountRun(P, volume, m, ops[..n + 1]).1
         == MountRun(P, volume, m, ops[..n]).1 + [MountStep(P, volume, After(P, volume, m, ops, n), ops[n]).1]
  {
    hide MountStep;
    assert ops[..n + 1][..n] == ops[..n];
  }

  lemma AfterEnds(P: Primitives, volume: string, m: Mounted, ops: seq<Op>)
    ensures After(P, volume, m, ops, 0) == m && After(P, volume, m, ops, |ops|) == MountRun(P, volume, m, ops).0
  {
    assert ops[..|ops|] == ops;
  }

  /** Every request of the run finds the content it depends on. */
  ghost predicate AllServed(P: Primitives, volume: string, m: Mounted, ops: seq<Op>) {
    forall k :: 0 <= k < |ops| ==>
      var t := After(P, volume, m, ops, k); CanServe(t.server.files, t.fs, ops[k])
  }

  /** Every write-back of the run registers aligned terms. */
  ghost predicate AlignedRun(P: Primitives, volume: string, m: Mounted, ops: seq<Op>) {
    forall k :: 0 <= k < |ops| ==>
      forall ino :: ino in WrittenBack(ops[k]) ==> StoresAligned(P, After(P, volume, m, ops, k), ino)
  }

  lemma {:induction false} LegalPrefix(p: Plain, ops: seq<Op>, k: nat)
    requires k < |ops| && LegalRun(p, ops)
    ensures Legal(PlainRun(p, ops[..k]).0, ops[k])
  {
    hide Legal, PlainStep;
    if k < |ops| - 1 {
      assert ops[..|ops| - 1][..k] == ops[..k];
      LegalPrefix(p, ops[..|ops| - 1], k);
    }
  }

  lemma PlainAfterStep(p: Plain, ops: seq<Op>, n: nat)
    requires n < |ops|
    ensures var (q, replies) := PlainRun(p, ops[..n]);
            && PlainRun(p, ops[..n + 1]).0 == PlainStep(q, ops[n]).0
            && PlainRun(p, ops[..n + 1]).1 == replies + [PlainStep(q, ops[n]).1]
            && RunEdits(p, ops[..n + 1]) == RunEdits(p, ops[..n]) + Edits(q, ops[n])
  {
    hide PlainStep, Edits;
    assert ops[..n + 1][..n] == ops[..n];
  }

  /** Every moment of every legal run, whatever the server's records decode to: the mount is in order,
      and in outline it is where the plain model is. */
  lemma {:induction false} RunOrderly(
    P: Primitives, volume: string, m: Mounted, tracked: set<nat>, ops: seq<Op>, n: nat)
    requires Lawful(P) && PacksAll(P) && Orderly(P, volume, m, tracked) && LegalRun(Abs(m.fs), ops) && n <= |ops|
    ensures var t, p := After(P, volume, m, ops, n), PlainRun(Abs(m.fs), ops[..n]).0;
            && Orderly(P, volume, t, tracked + RunEdits(Abs(m.fs), ops[..n])) && SameOutline(Abs(t.fs), p)
            && (NamesUnique(m.fs.nodes) ==> NamesUnique(t.fs.nodes)) && SameFiles(m.fs.nodes, t.fs.nodes)
            && (n < |ops| ==> Legal(Abs(t.fs), ops[n]))
  {
    hide Lawful, PacksAll, Orderly, MountStep, PlainStep, Abs, NamesUnique, SameFiles, Legal, Edits, SameOutline;
    var p := Abs(m.fs);
    if n == 0 {
      assert tracked + {} == tracked;
      assert SameOutline(p, p) by { OutlineRefl(p); }
      SameFilesRefl(m.fs.nodes);
    } else {
      RunOrderly(P, volume, m, tracked, ops, n - 1);
      var t, q := After(P, volume, m, ops, n - 1), PlainRun(p, ops[..n - 1]).0;
      var tracked' := tracked + RunEdits(p, ops[..n - 1]);
      AfterStep(P, volume, m, ops, n - 1);
      PlainAfterStep(p, ops, n - 1);
      StepOrderly(P, volume, t, tracked', ops[n - 1]);
      StepOutline(P, volume, t, tracked', ops[n - 1], q);
      OutlineLegal(Abs(t.fs), q, ops[n - 1]);
      assert tracked' + Edits(q, ops[n - 1]) == tracked + RunEdits(p, ops[..n]);
      SameFilesTransitive(m.fs.nodes, t.fs.nodes, After(P, volume, m, ops, n).fs.nodes);
    }
    if n < |ops| {
      LegalPrefix(p, ops, n);
      OutlineLegal(Abs(After(P, volume, m, ops, n).fs), PlainRun(p, ops[..n]).0, ops[n]);
    }
  }

  lemma OutlineRefl(p: Plain)
    ensures SameOutline(p, p)
  {
  }

  lemma SameFilesTransitive(a: Nodes, b: Nodes, c: Nodes)
    requires SameFiles(a, b) && SameFiles(b, c)
    ensures SameFiles(a, c)
  {
    hide FullPath;
  }

  /** As long as every request finds its content, the mount answers and ends as the plain model does. */
  lemma {:induction false} RunRefines(
    P: Primitives, volume: string, m: Mounted, tracked: set<nat>, ops: seq<Op>, n: nat)
    requires Lawful(P) && PacksAll(P) && Orderly(P, volume, m, tracked) && LegalRun(Abs(m.fs), ops) && n <= |ops|
    requires CacheOk(m.fs) && AllServed(P, volume, m, ops[..n])
    ensures var (t, replies) := MountRun(P, volume, m, ops[..n]);
            && CacheOk(t.fs) && (Abs(t.fs), replies) == PlainRun(Abs(m.fs), ops[..n])
            && (SizesOk(m.fs) ==> SizesOk(t.fs))
  {
    hide Lawful, PacksAll, Orderly, MountStep, PlainStep, Abs, NamesUnique, SameFiles, Legal, Edits, SameOutline,
      CacheOk, SizesOk, CanServe, LegalRun;
    if n > 0 {
      var t := After(P, volume, m, ops, n - 1);
      ServedPrefix(P, volume, m, ops, n - 1);
      RunRefines(P, volume, m, tracked, ops, n - 1);
      RunOrderly(P, volume, m, tracked, ops, n - 1);
      AfterStep(P, volume, m, ops, n - 1);
      PlainAfterStep(Abs(m.fs), ops, n - 1);
      StepRefines(P, volume, t, tracked + RunEdits(Abs(m.fs), ops[..n - 1]), ops[n - 1]);
    }
  }

  lemma ServedPrefix(P: Primitives, volume: string, m: Mounted, ops: seq<Op>, n: nat)
    requires n < |ops| && AllServed(P, volume, m, ops[..n + 1])
    ensures AllServed(P, volume, m, ops[..n])
    ensures var t := After(P, volume, m, ops, n); CanServe(t.server.files, t.fs, ops[n])
  {
    hide MountRun, CanServe;
    var init := ops[..n + 1];
    assert init[..n] == ops[..n] && init[n] == ops[n];
    forall k | 0 <= k < n
      ensures var t := After(P, volume, m, ops[..n], k); CanServe(t.server.files, t.fs, ops[..n][k])
    {
      assert ops[..n][..k] == init[..k] && ops[..n][k] == init[k];
      assert CanServe(After(P, volume, m, init, k).server.files, After(P, volume, m, init, k).fs, init[k]);
    }
  }

  /** A mount all of whose files read back stays so at every moment of a run if and only if every
      write-back of the run registers aligned terms; then no request lacks its content. */
  lemma RunReadableExactly(P: Primitives, volume: string, m: Mounted, tracked: set<nat>, ops: seq<Op>)
    requires Lawful(P) && PacksAll(P) && Orderly(P, volume, m, tracked) && LegalRun(Abs(m.fs), ops)
    requires AllReadable(m.server.files, m.fs.nodes)
    ensures AlignedRun(P, volume, m, ops) <==> forall n :: 0 <= n <= |ops| ==> ReadableAt(P, volume, m, ops, n)
    ensures AlignedRun(P, volume, m, ops) ==> AllServed(P, volume, m, ops)
  {
    hide Lawful, PacksAll, Orderly, MountRun, Abs, StoresAligned, AllReadable, CanServe, WrittenBack, LegalRun;
    if AlignedRun(P, volume, m, ops) {
      forall n | 0 <= n <= |ops|
        ensures ReadableAt(P, volume, m, ops, n)
      {
        AlignedKeepsReadable(P, volume, m, tracked, ops, n);
      }
      forall k | 0 <= k < |ops|
        ensures var t := After(P, volume, m, ops, k); CanServe(t.server.files, t.fs, ops[k])
      {
        assert ReadableAt(P, volume, m, ops, k);
        ReadableServes(After(P, volume, m, ops, k), ops[k]);
      }
    }
    if forall n :: 0 <= n <= |ops| ==> ReadableAt(P, volume, m, ops, n) {
      forall k | 0 <= k < |ops|
        ensures forall ino :: ino in WrittenBack(ops[k]) ==> StoresAligned(P, After(P, volume, m, ops, k), ino)
      {
        assert ReadableAt(P, volume, m, ops, k) && ReadableAt(P, volume, m, ops, k + 1);
        ReadableStep(P, volume, m, tracked, ops, k);
      }
    }
  }

  ghost predicate ReadableAt(P: Primitives, volume: string, m: Mounted, ops: seq<Op>, n: nat)
    requires n <= |ops|
  {
    var t := After(P, volume, m, ops, n);
    AllReadable(t.server.files, t.fs.nodes)
  }

  lemma ReadableStep(P: Primitives, volume: string, m: Mounted, tracked: set<nat>, ops: seq<Op>, k: nat)
    requires Lawful(P) && PacksAll(P) && Orderly(P, volume, m, tracked) && LegalRun(Abs(m.fs), ops) && k < |ops|
    requires ReadableAt(P, volume, m, ops, k)
    ensures ReadableAt(P, volume, m, ops, k + 1) <==>
            forall ino :: ino in WrittenBack(ops[k]) ==> StoresAligned(P, After(P, volume, m, ops, k), ino)
  {
    hide Lawful, PacksAll, Orderly, MountRun, Abs, StoresAligned, AllReadable, MountStep, WrittenBack, LegalRun, Legal,
      RunEdits, PlainRun, SameOutline, SameFiles, NamesUnique, Storable;
    RunOrderly(P, volume, m, tracked, ops, k);
    AfterStep(P, volume, m, ops, k);
    StepReadable(P, volume, After(P, volume, m, ops, k), tracked + RunEdits(Abs(m.fs), ops[..k]), ops[k]);
  }

  lemma {:induction false} AlignedKeepsReadable(
    P: Primitives, volume: string, m: Mounted, tracked: set<nat>, ops: seq<Op>, n: nat)
    requires Lawful(P) && PacksAll(P) && Orderly(P, volume, m, tracked) && LegalRun(Abs(m.fs), ops) && n <= |ops|
    requires AllReadable(m.server.files, m.fs.nodes) && AlignedRun(P, volume, m, ops)
    ensures ReadableAt(P, volume, m, ops, n)
  {
    hide Lawful, PacksAll, Orderly, MountRun, Abs, StoresAligned, AllReadable, WrittenBack, LegalRun, After;
    if n == 0 {
      AfterEnds(P, volume, m, ops);
    } else {
      AlignedKeepsReadable(P, volume, m, tracked, ops, n - 1);
      ReadableStep(P, volume, m, tracked, ops, n - 1);
    }
  }

  lemma {:induction false} LegalRunPrefix(p: Plain, ops: seq<Op>, n: nat)
    requires LegalRun(p, ops) && n <= |ops|
    ensures LegalRun(p, ops[..n])
  {
    hide Legal, PlainRun;
    if n < |ops| {
      LegalRunPrefix(p, ops[..|ops| - 1], n);
      assert ops[..|ops| - 1][..n] == ops[..n];
    } else {
      assert ops[..n] == ops;
    }
  }

  lemma AlignedSnoc(P: Primitives, volume: string, m: Mounted, ops: seq<Op>, n: nat)
    requires n < |ops| && AlignedRun(P, volume, m, ops[..n])
    requires forall ino :: ino in WrittenBack(ops[n]) ==> StoresAligned(P, After(P, volume, m, ops, n), ino)
    ensures AlignedRun(P, volume, m, ops[..n + 1])
  {
    hide MountRun, StoresAligned, WrittenBack;
    var longer := ops[..n + 1];
    forall k | 0 <= k < |longer|
      ensures forall ino :: ino in WrittenBack(longer[k]) ==> StoresAligned(P, After(P, volume, m, longer, k), ino)
    {
      assert longer[..k] == ops[..k];
      if k < n { assert ops[..n][..k] == ops[..k] && ops[..n][k] == longer[k]; }
    }
  }

  /** Runs that write back only content without repeated chunks are aligned. */
  lemma {:induction false} StorableAligns(
    P: Primitives, volume: string, m: Mounted, tracked: set<nat>, ops: seq<Op>, n: nat)
    requires Lawful(P) && PacksAll(P) && Orderly(P, volume, m, tracked) && LegalRun(Abs(m.fs), ops) && n <= |ops|
    requires CacheOk(m.fs) && AllReadable(m.server.files, m.fs.nodes) && StorableRun(P, Abs(m.fs), ops)
    ensures AlignedRun(P, volume, m, ops[..n])
  {
    hide Lawful, PacksAll, Orderly, MountRun, Abs, StoresAligned, AllReadable, WrittenBack, LegalRun, PlainRun,
      Storable, CacheOk, StorableRun;
    if n > 0 {
      StorableAligns(P, volume, m, tracked, ops, n - 1);
      StorableAlignsNext(P, volume, m, tracked, ops, n - 1);
      AlignedSnoc(P, volume, m, ops, n - 1);
    }
  }

  lemma StorableAlignsNext(P: Primitives, volume: string, m: Mounted, tracked: set<nat>, ops: seq<Op>, n: nat)
    requires Lawful(P) && PacksAll(P) && Orderly(P, volume, m, tracked) && LegalRun(Abs(m.fs), ops) && n < |ops|
    requires CacheOk(m.fs) && AllReadable(m.server.files, m.fs.nodes) && StorableRun(P, Abs(m.fs), ops)
    requires AlignedRun(P, volume, m, ops[..n])
    ensures forall ino :: ino in WrittenBack(ops[n]) ==> StoresAligned(P, After(P, volume, m, ops, n), ino)
  {
    hide Lawful, PacksAll, Orderly, Abs, StoresAligned, AllReadable, WrittenBack, LegalRun, PlainRun, Storable, CacheOk,
      MountRun, MountStep, AlignedRun, AllServed, RunEdits, SameOutline, SameFiles, NamesUnique, Legal, SizesOk;
    var init, t := ops[..n], After(P, volume, m, ops, n);
    LegalRunPrefix(Abs(m.fs), ops, n);
    assert init[..n] == init;
    RunReadableExactly(P, volume, m, tracked, init);
    RunRefines(P, volume, m, tracked, ops, n);
    RunOrderly(P, volume, m, tracked, ops, n);
    assert ReadableAt(P, volume, m, init, n);
    StepReadable(P, volume, t, tracked + RunEdits(Abs(m.fs), init), ops[n]);
  }

  lemma {:induction false} RepliesPrefix(P: Primitives, volume: string, m: Mounted, ops: seq<Op>, n: nat)
    requires n <= |ops|
    ensures |MountRun(P, volume, m, ops).1| == |ops|
    ensures MountRun(P, volume, m, ops[..n]).1 == MountRun(P, volume, m, ops).1[..n]
  {
    hide MountStep;
    if n < |ops| {
      RepliesPrefix(P, volume, m, ops[..|ops| - 1], n);
      assert ops[..|ops| - 1][..n] == ops[..n];
    } else {
      assert ops[..n] == ops;
      if |ops| > 0 { RepliesPrefix(P, volume, m, ops[..|ops| - 1], |ops| - 1); }
    }
  }

  /** Everything said of a run, put together. */
  lemma RunMeans(P: Primitives, volume: string, m: Mounted, tracked: set<nat>, ops: seq<Op>)
    requires Lawful(P) && PacksAll(P) && Orderly(P, volume, m, tracked) && LegalRun(Abs(m.fs), ops)
    ensures var (t, replies) := MountRun(P, volume, m, ops); var p := Abs(m.fs);
            && |replies| == |ops| && SameOutline(Abs(t.fs), PlainRun(p, ops).0)
            && (NamesUnique(m.fs.nodes) ==> NamesUnique(t.fs.nodes))
            && (CacheOk(m.fs) ==> forall n :: 0 <= n <= |ops| && AllServed(P, volume, m, ops[..n]) ==>
                  replies[..n] == PlainRun(p, ops[..n]).1)
            && (CacheOk(m.fs) && AllServed(P, volume, m, ops) ==>
                  CacheOk(t.fs) && Abs(t.fs) == PlainRun(p, ops).0 && (SizesOk(m.fs) ==> SizesOk(t.fs)))
            && (AllReadable(m.server.files, m.fs.nodes) && AlignedRun(P, volume, m, ops) ==>
                  AllReadable(t.server.files, t.fs.nodes) && AllServed(P, volume, m, ops))
            && (CacheOk(m.fs) && AllReadable(m.server.files, m.fs.nodes) && StorableRun(P, p, ops) ==>
                  AlignedRun(P, volume, m, ops))
  {
    hide Lawful, PacksAll, Orderly, LegalRun, MountRun, PlainRun, Abs, CacheOk, SizesOk, NamesUnique, AllReadable,
      AllServed, AlignedRun, StorableRun, SameOutline, SameFiles, RunEdits, Legal;
    assert ops[..|ops|] == ops;
    RunOrderly(P, volume, m, tracked, ops, |ops|);
    RepliesPrefix(P, volume, m, ops, |ops|);
    if CacheOk(m.fs) {
      forall n | 0 <= n <= |ops| && AllServed(P, volume, m, ops[..n])
        ensures MountRun(P, volume, m, ops).1[..n] == PlainRun(Abs(m.fs), ops[..n]).1
      {
        RepliesPrefix(P, volume, m, ops, n);
        RunRefines(P, volume, m, tracked, ops, n);
      }
      if AllServed(P, volume, m, ops) { RunRefines(P, volume, m, tracked, ops, |ops|); }
    }
    if AllReadable(m.server.files, m.fs.nodes) {
      RunReadableExactly(P, volume, m, tracked, ops);
      if AlignedRun(P, volume, m, ops) { assert ReadableAt(P, volume, m, ops, |ops|); }
      if CacheOk(m.fs) && StorableRun(P, Abs(m.fs), ops) { StorableAligns(P, volume, m, tracked, ops, |ops|); }
    }
  }
}
