/** The agent's greedy term planner and the entry selection of its reassembler, as functions, with
    the laws that hold for every chunk list and every set of dedup answers. */
module Planner {
  import opened Basics
  import opened XorbFormat
  import opened ServerModel

  const MAX_XORB_UNCOMPRESSED: nat := 60 * 1024 * 1024
  const MAX_XORB_CHUNKS: nat := 8192

  /** One dedup answer: where the chunk already lives. */
  datatype Hit = Hit(xorb: XorbHash, index: nat)

  type Locs = seq<Option<Hit>>

  /** The position really holds the chunk, and is the first in its xorb that does. */
  ghost predicate HitSound(c: Chunk, hit: Hit) {
    hit.index < |hit.xorb.chunks| && hit.xorb.chunks[hit.index] == c && FirstAt(hit.xorb, hit.index)
  }

  ghost predicate LocsSound(chunks: seq<Chunk>, locs: Locs) {
    && |locs| <= |chunks|
    && forall k :: 0 <= k < |locs| && locs[k].Some? ==> HitSound(chunks[k], locs[k].value)
  }

  // ---- What a term may cover ----

  predicate KnownRun(locs: Locs, a: nat, b: nat)
    requires a < b <= |locs|
  {
    locs[a].Some?
    && forall k :: a <= k < b ==> locs[k] == Some(Hit(locs[a].value.xorb, locs[a].value.index + (k - a)))
  }

  /** A novel xorb: one chunk of any size, or at most 8192 chunks with at most 60 MiB between them. */
  predicate NovelRun(chunks: seq<Chunk>, locs: Locs, a: nat, b: nat)
    requires a < b <= |locs| == |chunks|
  {
    && (forall k :: a <= k < b ==> locs[k].None?)
    && (b == a + 1 || (b - a <= 8192 && TotalLen(chunks[a..b]) <= 62914560))
  }

  predicate ValidGroup(chunks: seq<Chunk>, locs: Locs, a: nat, b: nat)
    requires |locs| == |chunks|
  {
    a < b <= |chunks| && (KnownRun(locs, a, b) || NovelRun(chunks, locs, a, b))
  }

  /** `ends` cuts the chunks from `a` on into consecutive valid groups, up to the end. */
  predicate Partition(chunks: seq<Chunk>, locs: Locs, a: nat, ends: seq<nat>)
    requires |locs| == |chunks|
    decreases |ends|
  {
    if |ends| == 0 then a == |chunks|
    else ValidGroup(chunks, locs, a, ends[0]) && Partition(chunks, locs, ends[0], ends[1..])
  }

  // ---- The greedy walk ----

  function KnownEnd(locs: Locs, i: nat, j: nat): (e: nat)
    requires i < j <= |locs| && locs[i].Some?
    ensures j <= e <= |locs|
    decreases |locs| - j
  {
    if j < |locs| && locs[j] == Some(Hit(locs[i].value.xorb, locs[i].value.index + (j - i)))
    then KnownEnd(locs, i, j + 1) else j
  }

  function NovelScan(chunks: seq<Chunk>, locs: Locs, i: nat, j: nat): (e: nat)
    requires i <= j <= |locs| == |chunks|
    ensures j <= e <= |locs|
    decreases |locs| - j
  {
    if j < |locs| && locs[j].None? && j - i < MAX_XORB_CHUNKS
       && TotalLen(chunks[i..j]) + |chunks[j]| <= MAX_XORB_UNCOMPRESSED
    then NovelScan(chunks, locs, i, j + 1) else j
  }

  /** Where the group starting at `i` ends. */
  function GroupEnd(chunks: seq<Chunk>, locs: Locs, i: nat): (e: nat)
    requires i < |locs| == |chunks|
    ensures i < e <= |locs|
  {
    if locs[i].Some? then KnownEnd(locs, i, i + 1) else Max(NovelScan(chunks, locs, i, i), i + 1)
  }

  function TermFor(chunks: seq<Chunk>, locs: Locs, i: nat, j: nat): Term
    requires i < j <= |locs| == |chunks|
  {
    match locs[i]
    case Some(hit) => Term(hit.xorb, hit.index, hit.index + (j - i), TotalLen(chunks[i..j]))
    case None => Term(XorbHash(chunks[i..j]), 0, j - i, TotalLen(chunks[i..j]))
  }

  /** The terms the agent emits for the chunks from `i` on. */
  function Plan(chunks: seq<Chunk>, locs: Locs, i: nat): seq<Term>
    requires i <= |locs| == |chunks|
    decreases |locs| - i
  {
    if i == |locs| then [] else
    var j := GroupEnd(chunks, locs, i);
    [TermFor(chunks, locs, i, j)] + Plan(chunks, locs, j)
  }

  /** The cut points of that plan. */
  function Cuts(chunks: seq<Chunk>, locs: Locs, i: nat): seq<nat>
    requires i <= |locs| == |chunks|
    decreases |locs| - i
  {
    if i == |locs| then [] else
    var j := GroupEnd(chunks, locs, i);
    [j] + Cuts(chunks, locs, j)
  }

  /** The xorbs the agent uploads for the chunks from `i` on. */
  function NovelXorbs(chunks: seq<Chunk>, locs: Locs, i: nat): set<XorbHash>
    requires i <= |locs| == |chunks|
    decreases |locs| - i
  {
    if i == |locs| then {} else
    var j := GroupEnd(chunks, locs, i);
    (if locs[i].None? then {XorbHash(chunks[i..j])} else {}) + NovelXorbs(chunks, locs, j)
  }

  // ---- The plan is a partition, and the shortest one ----

  lemma {:induction false} KnownEndMaximal(locs: Locs, i: nat, j: nat)
    requires i < j <= |locs| && locs[i].Some? && KnownRun(locs, i, j)
    ensures KnownRun(locs, i, KnownEnd(locs, i, j))
    ensures forall b :: KnownEnd(locs, i, j) < b <= |locs| ==> !KnownRun(locs, i, b)
    decreases |locs| - j
  {
    if j < |locs| && locs[j] == Some(Hit(locs[i].value.xorb, locs[i].value.index + (j - i))) {
      KnownEndMaximal(locs, i, j + 1);
    }
  }

  ghost predicate WithinCaps(chunks: seq<Chunk>, locs: Locs, i: nat, j: nat)
    requires i <= j <= |locs| == |chunks|
  {
    && (forall k :: i <= k < j ==> locs[k].None?)
    && j - i <= MAX_XORB_CHUNKS && TotalLen(chunks[i..j]) <= MAX_XORB_UNCOMPRESSED
  }

  lemma TotalLenGrows(chunks: seq<Chunk>, i: nat, j: nat, b: nat)
    requires i <= j <= b <= |chunks|
    ensures TotalLen(chunks[i..j]) <= TotalLen(chunks[i..b])
    ensures j < b ==> TotalLen(chunks[i..j + 1]) == TotalLen(chunks[i..j]) + |chunks[j]|
  {
    TotalLenSlice(chunks[i..b], j - i, b - i);
    assert chunks[i..b][..j - i] == chunks[i..j] && chunks[i..b][..b - i] == chunks[i..b];
    if j < b {
      TotalLenSnoc(chunks[i..j], chunks[j]);
      assert chunks[i..j + 1] == chunks[i..j] + [chunks[j]];
    }
  }

  lemma {:induction false} NovelScanMaximal(chunks: seq<Chunk>, locs: Locs, i: nat, j: nat)
    requires i <= j <= |locs| == |chunks| && WithinCaps(chunks, locs, i, j)
    ensures WithinCaps(chunks, locs, i, NovelScan(chunks, locs, i, j))
    ensures forall b :: NovelScan(chunks, locs, i, j) < b <= |locs| ==> !WithinCaps(chunks, locs, i, b)
    decreases |locs| - j
  {
    if j < |locs| {
      TotalLenGrows(chunks, i, j, j + 1);
      if locs[j].None? && j - i < MAX_XORB_CHUNKS
         && TotalLen(chunks[i..j]) + |chunks[j]| <= MAX_XORB_UNCOMPRESSED {
        NovelScanMaximal(chunks, locs, i, j + 1);
      } else {
        forall b | j < b <= |locs|
          ensures !WithinCaps(chunks, locs, i, b)
        {
          TotalLenGrows(chunks, i, j + 1, b);
        }
      }
    }
  }

  /** Each greedy group is valid, and no valid group from the same chunk reaches further. */
  lemma GroupEndMaximal(chunks: seq<Chunk>, locs: Locs, i: nat)
    requires i < |locs| == |chunks|
    ensures ValidGroup(chunks, locs, i, GroupEnd(chunks, locs, i))
    ensures forall b: nat :: ValidGroup(chunks, locs, i, b) ==> b <= GroupEnd(chunks, locs, i)
  {
    if locs[i].Some? {
      KnownEndMaximal(locs, i, i + 1);
    } else {
      assert chunks[i..i] == [];
      NovelScanMaximal(chunks, locs, i, i);
      forall b: nat | ValidGroup(chunks, locs, i, b)
        ensures b <= GroupEnd(chunks, locs, i)
      {
        assert NovelRun(chunks, locs, i, b);
        assert b == i + 1 || WithinCaps(chunks, locs, i, b);
      }
    }
  }

  /** A tail of a valid group is a valid group. */
  lemma ValidGroupTail(chunks: seq<Chunk>, locs: Locs, a: nat, i: nat, b: nat)
    requires |locs| == |chunks| && a <= i < b && ValidGroup(chunks, locs, a, b)
    ensures ValidGroup(chunks, locs, i, b)
  {
    if KnownRun(locs, a, b) {
      assert locs[i] == Some(Hit(locs[a].value.xorb, locs[a].value.index + (i - a)));
      assert KnownRun(locs, i, b);
    } else if i > a {
      TotalLenSlice(chunks[a..b], i - a, b - a);
      assert chunks[a..b][i - a..b - a] == chunks[i..b] && chunks[a..b][..b - a] == chunks[a..b];
      assert NovelRun(chunks, locs, i, b);
    }
  }

  /** The planner cuts the whole chunk list into valid groups, one term each. */
  lemma {:induction false} PlanIsPartition(chunks: seq<Chunk>, locs: Locs, i: nat)
    requires i <= |locs| == |chunks|
    ensures Partition(chunks, locs, i, Cuts(chunks, locs, i))
    ensures |Cuts(chunks, locs, i)| == |Plan(chunks, locs, i)|
    decreases |locs| - i
  {
    if i < |locs| {
      var j := GroupEnd(chunks, locs, i);
      GroupEndMaximal(chunks, locs, i);
      PlanIsPartition(chunks, locs, j);
      assert Cuts(chunks, locs, i)[1..] == Cuts(chunks, locs, j);
    }
  }

  /** Greedy stays ahead: from any point at or past `a`, the plan needs no more terms than any
      partition that starts at `a`. */
  lemma {:induction false} PlanStaysAhead(chunks: seq<Chunk>, locs: Locs, a: nat, i: nat, ends: seq<nat>)
    requires a <= i <= |locs| == |chunks| && Partition(chunks, locs, a, ends)
    ensures |Plan(chunks, locs, i)| <= |ends|
    decreases |ends|
  {
    if i < |locs| {
      var b := ends[0];
      if b <= i {
        PlanStaysAhead(chunks, locs, b, i, ends[1..]);
      } else {
        ValidGroupTail(chunks, locs, a, i, b);
        GroupEndMaximal(chunks, locs, i);
        PlanStaysAhead(chunks, locs, b, GroupEnd(chunks, locs, i), ends[1..]);
      }
    }
  }

  /** No way of cutting the chunk list into valid terms uses fewer terms than the planner. */
  lemma PlanIsOptimal(chunks: seq<Chunk>, locs: Locs)
    requires |locs| == |chunks|
    ensures Partition(chunks, locs, 0, Cuts(chunks, locs, 0))
    ensures |Cuts(chunks, locs, 0)| == |Plan(chunks, locs, 0)|
    ensures forall ends :: Partition(chunks, locs, 0, ends) ==> |Plan(chunks, locs, 0)| <= |ends|
  {
    PlanIsPartition(chunks, locs, 0);
    forall ends | Partition(chunks, locs, 0, ends)
      ensures |Plan(chunks, locs, 0)| <= |ends|
    {
      PlanStaysAhead(chunks, locs, 0, 0, ends);
    }
  }

  // ---- The plan covers the chunks ----

  lemma TermForCovers(chunks: seq<Chunk>, locs: Locs, i: nat)
    requires i < |locs| == |chunks| && LocsSound(chunks, locs)
    ensures var t := TermFor(chunks, locs, i, GroupEnd(chunks, locs, i));
            TermOk(t) && TermChunks(t) == chunks[i..GroupEnd(chunks, locs, i)]
  {
    var j := GroupEnd(chunks, locs, i);
    var t := TermFor(chunks, locs, i, j);
    if locs[i].Some? {
      KnownEndMaximal(locs, i, i + 1);
      assert HitSound(chunks[i], locs[i].value);
      assert locs[j - 1] == Some(Hit(t.xorb, t.start + (j - 1 - i))) && HitSound(chunks[j - 1], locs[j - 1].value);
      forall k | i <= k < j
        ensures t.xorb.chunks[t.start + (k - i)] == chunks[k]
      {
        assert locs[k] == Some(Hit(t.xorb, t.start + (k - i))) && HitSound(chunks[k], locs[k].value);
      }
      assert TermChunks(t) == chunks[i..j];
    } else {
      assert TermChunks(t) == chunks[i..j];
    }
  }

  lemma {:induction false} CoveredConcat(a: seq<Term>, b: seq<Term>)
    ensures Covered(a + b) == Covered(a) + Covered(b)
  {
    hide TermChunks;
    if |b| == 0 {
      assert a + b == a;
    } else {
      var n := |b| - 1;
      CoveredConcat(a, b[..n]);
      assert (a + b)[..|a + b| - 1] == a + b[..n];
      AppendAssociates(Covered(a), Covered(b[..n]), TermChunks(b[n]));
    }
  }

  /** Every chunk lies in exactly one term, in order: the terms spell out the chunk list. */
  lemma {:induction false} PlanCovers(chunks: seq<Chunk>, locs: Locs, i: nat)
    requires i <= |locs| == |chunks| && LocsSound(chunks, locs)
    ensures TermsOk(Plan(chunks, locs, i))
    ensures Covered(Plan(chunks, locs, i)) == chunks[i..]
    decreases |locs| - i
  {
    hide LocsSound, TermOk, TermChunks, TermFor, GroupEnd;
    if i < |locs| {
      var j := GroupEnd(chunks, locs, i);
      var t := TermFor(chunks, locs, i, j);
      TermForCovers(chunks, locs, i);
      PlanCovers(chunks, locs, j);
      CoveredCons(t, Plan(chunks, locs, j));
      SliceSplits(chunks, i, j);
    }
  }

  lemma SliceSplits<T>(s: seq<T>, i: nat, j: nat)
    requires i <= j <= |s|
    ensures s[i..] == s[i..j] + s[j..]
  {
  }

  lemma CoveredCons(t: Term, rest: seq<Term>)
    ensures Covered([t] + rest) == TermChunks(t) + Covered(rest)
  {
    hide Covered, TermChunks;
    CoveredConcat([t], rest);
    CoveredOne(t);
  }

  lemma CoveredOne(t: Term)
    ensures Covered([t]) == TermChunks(t)
  {
    hide TermChunks;
    assert [t][..0] == [];
    assert Covered([]) == [];
  }

  /** Terms sum to the bytes they cover. */
  lemma {:induction false} UnpackedSum(terms: seq<Term>)
    requires TermsOk(terms)
    ensures SumUnpacked(terms) == TotalLen(Covered(terms))
  {
    if |terms| > 0 {
      var init := terms[..|terms| - 1];
      UnpackedSum(init);
      assert TermOk(terms[|terms| - 1]);
      TotalLenConcat(Covered(init), TermChunks(terms[|terms| - 1]));
    }
  }

  function SumUnpacked(terms: seq<Term>): int {
    if |terms| == 0 then 0 else SumUnpacked(terms[..|terms| - 1]) + terms[|terms| - 1].unpackedLength
  }

  /** A chunk is uploaded exactly when some occurrence of it got no dedup answer. */
  lemma {:induction false} NovelXorbsHoldMisses(chunks: seq<Chunk>, locs: Locs, i: nat, c: Chunk)
    requires i <= |locs| == |chunks|
    ensures (exists x :: x in NovelXorbs(chunks, locs, i) && c in x.chunks)
       <==> (exists k :: i <= k < |locs| && locs[k].None? && chunks[k] == c)
    decreases |locs| - i
  {
    if i < |locs| {
      var j := GroupEnd(chunks, locs, i);
      GroupEndMaximal(chunks, locs, i);
      NovelXorbsHoldMisses(chunks, locs, j, c);
      var rest := NovelXorbs(chunks, locs, j);
      if locs[i].None? {
        var head := XorbHash(chunks[i..j]);
        assert NovelXorbs(chunks, locs, i) == {head} + rest;
        assert forall k :: i <= k < j ==> locs[k].None?;
        if k :| i <= k < |locs| && locs[k].None? && chunks[k] == c {
          if k < j { assert c == head.chunks[k - i]; assert head in NovelXorbs(chunks, locs, i); }
        }
        if c in head.chunks {
          var p :| 0 <= p < |head.chunks| && head.chunks[p] == c;
          assert chunks[i + p] == c;
        }
      } else {
        assert NovelXorbs(chunks, locs, i) == rest;
        assert KnownRun(locs, i, j);
        assert forall k :: i <= k < j ==> locs[k].Some?;
      }
    }
  }

  /** Every planned term refers to an uploaded xorb or to one named by a dedup answer, and every
      uploaded xorb is referred to. */
  lemma {:induction false} PlanXorbs(chunks: seq<Chunk>, locs: Locs, i: nat)
    requires i <= |locs| == |chunks|
    ensures forall t :: t in Plan(chunks, locs, i) ==>
              t.xorb in NovelXorbs(chunks, locs, i)
              || exists k :: 0 <= k < |locs| && locs[k].Some? && locs[k].value.xorb == t.xorb
    ensures forall x :: x in NovelXorbs(chunks, locs, i) ==> exists t :: t in Plan(chunks, locs, i) && t.xorb == x
    decreases |locs| - i
  {
    if i < |locs| {
      var j := GroupEnd(chunks, locs, i);
      PlanXorbs(chunks, locs, j);
      var head := TermFor(chunks, locs, i, j);
      assert Plan(chunks, locs, i) == [head] + Plan(chunks, locs, j);
      forall x | x in NovelXorbs(chunks, locs, i)
        ensures exists t :: t in Plan(chunks, locs, i) && t.xorb == x
      {
        if x in NovelXorbs(chunks, locs, j) {
          var t :| t in Plan(chunks, locs, j) && t.xorb == x;
          assert t in Plan(chunks, locs, i);
        } else {
          assert head in Plan(chunks, locs, i) && head.xorb == x;
        }
      }
    }
  }

  // ---- Reassembly: which entry the agent decodes for each term ----

  predicate Covers(entry: Term, t: Term) {
    entry.xorb == t.xorb && entry.start <= t.start && entry.end >= t.end
  }

  /** Position of the first entry that covers `t`, or `|entries|`. */
  function FirstCover(entries: seq<Term>, t: Term): (j: nat)
    ensures j <= |entries|
    ensures j < |entries| ==> Covers(entries[j], t)
    ensures forall k :: 0 <= k < j ==> !Covers(entries[k], t)
  {
    if |entries| == 0 || Covers(entries[0], t) then 0 else
    var rest := FirstCover(entries[1..], t);
    assert forall k :: 1 <= k < rest + 1 ==> entries[k] == entries[1..][k - 1];
    rest + 1
  }

  /** The chunks actually decoded for `t`: as many as `t` has, but from where the chosen entry
      begins. */
  function Shifted(entries: seq<Term>, t: Term): Term {
    var j := FirstCover(entries, t);
    if j == |entries| || t.end < t.start then t
    else t.(start := entries[j].start, end := entries[j].start + (t.end - t.start))
  }

  function ShiftedAll(terms: seq<Term>): seq<Term> {
    seq(|terms|, k requires 0 <= k < |terms| => Shifted(terms, terms[k]))
  }

  /** Each term's first covering entry begins where the term does. */
  predicate Aligned(terms: seq<Term>) {
    forall k :: 0 <= k < |terms| ==> Shifted(terms, terms[k]).start == terms[k].start
  }

  lemma ShiftedInRange(terms: seq<Term>, k: nat)
    requires k < |terms| && TermsOk(terms)
    ensures var j := FirstCover(terms, terms[k]); j <= k && TermOk(terms[j]) && Covers(terms[j], terms[k])
    ensures |TermChunks(Shifted(terms, terms[k]))| == |TermChunks(terms[k])|
  {
    assert Covers(terms[k], terms[k]) && TermOk(terms[k]);
    assert TermOk(terms[FirstCover(terms, terms[k])]);
  }

  lemma AlignedDecodesAll(terms: seq<Term>)
    requires TermsOk(terms) && Aligned(terms)
    ensures ShiftedAll(terms) == terms
  {
    forall k | 0 <= k < |terms|
      ensures ShiftedAll(terms)[k] == terms[k]
    {
      ShiftedInRange(terms, k);
      assert Shifted(terms, terms[k]).start == terms[k].start && TermOk(terms[k]);
    }
  }

  ghost predicate SameSlices(a: seq<Term>, b: seq<Term>)
    requires |a| == |b|
  {
    forall k :: 0 <= k < |a| ==> TermChunks(a[k]) == TermChunks(b[k])
  }

  lemma ConcatEqualIff<T>(a: seq<T>, x: seq<T>, b: seq<T>, y: seq<T>)
    requires |a| == |b|
    ensures a + x == b + y <==> a == b && x == y
  {
    if a + x == b + y {
      assert a == (a + x)[..|a|] == b;
      assert x == (a + x)[|a|..] == y;
    }
  }

  lemma {:induction false} CoveredEqualIff(a: seq<Term>, b: seq<Term>)
    requires |a| == |b|
    requires forall k :: 0 <= k < |a| ==> |TermChunks(a[k])| == |TermChunks(b[k])|
    ensures |Covered(a)| == |Covered(b)|
    ensures Covered(a) == Covered(b) <==> SameSlices(a, b)
  {
    if |a| > 0 {
      var n := |a| - 1;
      CoveredEqualIff(a[..n], b[..n]);
      ConcatEqualIff(Covered(a[..n]), TermChunks(a[n]), Covered(b[..n]), TermChunks(b[n]));
      SameSlicesSnoc(a, b);
    }
  }

  lemma SameSlicesSnoc(a: seq<Term>, b: seq<Term>)
    requires |a| == |b| > 0
    ensures var n := |a| - 1;
            SameSlices(a, b) <==> SameSlices(a[..n], b[..n]) && TermChunks(a[n]) == TermChunks(b[n])
  {
    var n := |a| - 1;
    if SameSlices(a[..n], b[..n]) && TermChunks(a[n]) == TermChunks(b[n]) {
      forall k | 0 <= k < |a|
        ensures TermChunks(a[k]) == TermChunks(b[k])
      {
        assert k < n ==> TermChunks(a[..n][k]) == TermChunks(b[..n][k]);
      }
    }
  }

  /** A run that begins no later and repeats the term's chunks begins where the term does. */
  lemma SameSliceSameStart(t: Term, u: Term)
    requires t.start < t.end <= |t.xorb.chunks| && FirstAt(t.xorb, t.start)
    requires u.xorb == t.xorb && u.start < u.end <= |u.xorb.chunks| && u.start <= t.start
    requires TermChunks(t) == TermChunks(u)
    ensures t.start == u.start
  {
    assert t.xorb.chunks[t.start] == TermChunks(t)[0] == TermChunks(u)[0] == t.xorb.chunks[u.start];
  }

  lemma SameSlicesAlign(terms: seq<Term>)
    requires TermsOk(terms) && SameSlices(ShiftedAll(terms), terms)
    ensures Aligned(terms)
  {
    hide Covered, TermChunks, TotalLen, FirstAt;
    forall k | 0 <= k < |terms|
      ensures Shifted(terms, terms[k]).start == terms[k].start
    {
      ShiftedInRange(terms, k);
      assert TermOk(terms[k]);
      assert TermChunks(ShiftedAll(terms)[k]) == TermChunks(terms[k]);
      SameSliceSameStart(terms[k], Shifted(terms, terms[k]));
    }
  }

  /** For every term list an agent can make, reassembly hands back its own chunk list exactly when
      each term's first covering entry begins where the term does. */
  lemma ReassemblyExact(terms: seq<Term>)
    requires TermsOk(terms)
    ensures Covered(ShiftedAll(terms)) == Covered(terms) <==> Aligned(terms)
  {
    hide Covered, TermChunks, TotalLen, Shifted, TermOk;
    forall k | 0 <= k < |terms|
      ensures |TermChunks(ShiftedAll(terms)[k])| == |TermChunks(terms[k])|
    {
      ShiftedInRange(terms, k);
    }
    CoveredEqualIff(ShiftedAll(terms), terms);
    if Aligned(terms) {
      AlignedDecodesAll(terms);
    }
    if SameSlices(ShiftedAll(terms), terms) {
      SameSlicesAlign(terms);
    }
  }

  const ACCIDENT := XorbHash([[1, 2], [1], [2, 1]])

  lemma AccidentTerms()
    ensures var t, u, v := Term(ACCIDENT, 0, 3, 5), Term(ACCIDENT, 1, 3, 3), Term(ACCIDENT, 0, 2, 3);
            && TermsOk([t, u]) && !Aligned([t, u]) && ShiftedAll([t, u]) == [t, v]
  {
    var t, u, v := Term(ACCIDENT, 0, 3, 5), Term(ACCIDENT, 1, 3, 3), Term(ACCIDENT, 0, 2, 3);
    assert TermChunks(t) == [[1, 2], [1], [2, 1]] && TermChunks(u) == [[1], [2, 1]];
    TotalOfThree([1, 2], [1], [2, 1]);
    hide TotalLen, TermChunks;
    assert TermOk(t) && TermOk(u);
    assert Shifted([t, u], t) == t && Shifted([t, u], u) == v;
    assert Shifted([t, u], [t, u][1]).start != [t, u][1].start;
  }

  /** The chunk lists are what can be compared: from a misaligned entry the bytes may come out right
      by accident, cut into other chunks. */
  lemma MisalignedBytesMayAgree()
    ensures var terms := [Term(ACCIDENT, 0, 3, 5), Term(ACCIDENT, 1, 3, 3)];
            && TermsOk(terms) && !Aligned(terms)
            && Flatten(Covered(ShiftedAll(terms))) == Flatten(Covered(terms))
  {
    AccidentTerms();
    hide TermsOk, Aligned, ShiftedAll;
    var t, u, v := Term(ACCIDENT, 0, 3, 5), Term(ACCIDENT, 1, 3, 3), Term(ACCIDENT, 0, 2, 3);
    var a: Chunk, b: Chunk, c: Chunk := [1, 2], [1], [2, 1];
    assert TermChunks(t) + TermChunks(u) == [a, b, c, b, c] && TermChunks(t) + TermChunks(v) == [a, b, c, a, b];
    hide TermChunks, Covered, Flatten;
    CoveredOfTwo(t, u);
    CoveredOfTwo(t, v);
    FlattenFive(a, b, c, b, c);
    FlattenFive(a, b, c, a, b);
    assert a + b == b + c;
  }

  lemma TotalOfThree(a: Chunk, b: Chunk, c: Chunk)
    ensures TotalLen([a, b, c]) == |a| + |b| + |c| && TotalLen([b, c]) == |b| + |c|
  {
    assert [a, b, c][1..] == [b, c] && [b, c][1..] == [c] && [c][1..] == [];
    assert TotalLen([c]) == |c| + TotalLen([c][1..]);
    assert TotalLen([b, c]) == |b| + TotalLen([b, c][1..]);
    assert TotalLen([a, b, c]) == |a| + TotalLen([a, b, c][1..]);
  }

  lemma FlattenFive(a: Chunk, b: Chunk, c: Chunk, d: Chunk, e: Chunk)
    ensures Flatten([a, b, c, d, e]) == a + b + c + (d + e)
  {
    FlattenSnoc([a, b, c, d], e);
    FlattenSnoc([a, b, c], d);
    FlattenSnoc([a, b], c);
    FlattenSnoc([a], b);
    FlattenOne(a);
    assert [a] + [b] == [a, b] && [a, b] + [c] == [a, b, c];
    assert [a, b, c] + [d] == [a, b, c, d] && [a, b, c, d] + [e] == [a, b, c, d, e];
  }

  lemma {:induction false} MemberCovered(terms: seq<Term>, k: nat, c: Chunk)
    requires k < |terms| && c in TermChunks(terms[k])
    ensures c in Covered(terms)
  {
    hide TermChunks;
    if k < |terms| - 1 {
      MemberCovered(terms[..|terms| - 1], k, c);
    }
  }

  lemma DistinctHalves<T>(a: seq<T>, b: seq<T>, x: T)
    requires Distinct(a + b) && x in a
    ensures x !in b
  {
    var i :| 0 <= i < |a| && a[i] == x;
    forall j | 0 <= j < |b|
      ensures b[j] != x
    {
      assert (a + b)[i] == x && (a + b)[|a| + j] == b[j];
    }
  }

  /** Two terms that share a chunk position make the file's chunk list repeat that chunk. */
  lemma SharedPositionRepeats(terms: seq<Term>, j: nat, k: nat, c: Chunk)
    requires j < k < |terms| && c in TermChunks(terms[j]) && c in TermChunks(terms[k])
    ensures !Distinct(Covered(terms))
  {
    hide TermChunks, Covered;
    var front, back := terms[..k], terms[k..];
    assert terms == front + back;
    CoveredConcat(front, back);
    MemberCovered(front, j, c);
    MemberCovered(back, 0, c);
    if Distinct(Covered(front) + Covered(back)) {
      DistinctHalves(Covered(front), Covered(back), c);
    }
  }

  lemma TermHolds(t: Term, q: nat)
    requires t.start <= q < t.end <= |t.xorb.chunks|
    ensures t.xorb.chunks[q] in TermChunks(t)
  {
    assert TermChunks(t)[q - t.start] == t.xorb.chunks[q];
  }

  lemma DistinctChunksSeparate(terms: seq<Term>, j: nat, k: nat)
    requires TermsOk(terms) && Distinct(Covered(terms))
    requires j < k < |terms| && terms[j].xorb == terms[k].xorb
    ensures terms[j].end <= terms[k].start || terms[k].end <= terms[j].start
  {
    hide Covered, TermChunks, Distinct, TotalLen;
    assert TermOk(terms[j]) && TermOk(terms[k]);
    var q := Max(terms[j].start, terms[k].start);
    if q < terms[j].end && q < terms[k].end {
      TermHolds(terms[j], q);
      TermHolds(terms[k], q);
      SharedPositionRepeats(terms, j, k, terms[j].xorb.chunks[q]);
    }
  }

  /** A file whose chunks are pairwise distinct never has one term inside another, so its terms are
      aligned whatever dedup answers the plan was made from. */
  lemma DistinctChunksAlign(terms: seq<Term>)
    requires TermsOk(terms) && Distinct(Covered(terms))
    ensures Aligned(terms)
    ensures forall j, k :: 0 <= j < k < |terms| && terms[j].xorb == terms[k].xorb ==>
              terms[j].end <= terms[k].start || terms[k].end <= terms[j].start
  {
    hide Covered, TermChunks, Distinct, TotalLen;
    forall j, k | 0 <= j < k < |terms| && terms[j].xorb == terms[k].xorb
      ensures terms[j].end <= terms[k].start || terms[k].end <= terms[j].start
    {
      DistinctChunksSeparate(terms, j, k);
    }
    forall k | 0 <= k < |terms|
      ensures Shifted(terms, terms[k]).start == terms[k].start
    {
      ShiftedInRange(terms, k);
      assert TermOk(terms[k]);
    }
  }

  /** The law fails without alignment: with A, B, C stored as one xorb, the file A B C B is
      planned as [0,3) and [1,2), and reassembly gives A B C A. */
  lemma RepeatedChunkBreaksReassembly(a: Chunk, b: Chunk, c: Chunk)
    requires a != b && b != c && a != c
    ensures var x := XorbHash([a, b, c]);
            var chunks := [a, b, c, b];
            var locs := [Some(Hit(x, 0)), Some(Hit(x, 1)), Some(Hit(x, 2)), Some(Hit(x, 1))];
            var terms := Plan(chunks, locs, 0);
            && LocsSound(chunks, locs)
            && Covered(terms) == chunks
            && Covered(ShiftedAll(terms)) == [a, b, c, a]
  {
    var x := XorbHash([a, b, c]);
    var t0, t1 := RepeatedChunkPlan(a, b, c);
    hide Plan, Covered, TotalLen;
    var terms := [t0, t1];
    CoveredOfTwo(t0, t1);
    assert Shifted(terms, t0) == t0 && Shifted(terms, t1) == t1.(start := 0, end := 1);
    assert ShiftedAll(terms) == [t0, t1.(start := 0, end := 1)];
    CoveredOfTwo(t0, t1.(start := 0, end := 1));
  }

  lemma RepeatedChunkPlan(a: Chunk, b: Chunk, c: Chunk) returns (t0: Term, t1: Term)
    ensures var x := XorbHash([a, b, c]);
            var locs := [Some(Hit(x, 0)), Some(Hit(x, 1)), Some(Hit(x, 2)), Some(Hit(x, 1))];
            && Plan([a, b, c, b], locs, 0) == [t0, t1]
            && t0.(unpackedLength := 0) == Term(x, 0, 3, 0) && t1.(unpackedLength := 0) == Term(x, 1, 2, 0)
  {
    hide TotalLen;
    var x := XorbHash([a, b, c]);
    var chunks := [a, b, c, b];
    var locs := [Some(Hit(x, 0)), Some(Hit(x, 1)), Some(Hit(x, 2)), Some(Hit(x, 1))];
    t0 := Term(x, 0, 3, TotalLen(chunks[0..3]));
    t1 := Term(x, 1, 2, TotalLen(chunks[3..4]));
    assert KnownEnd(locs, 0, 3) == 3 && KnownEnd(locs, 0, 2) == 3 && KnownEnd(locs, 0, 1) == 3;
    assert Plan(chunks, locs, 4) == [];
    assert Plan(chunks, locs, 3) == [t1];
    assert Plan(chunks, locs, 0) == [t0, t1];
  }

  lemma CoveredOfTwo(t: Term, u: Term)
    ensures Covered([t, u]) == TermChunks(t) + TermChunks(u)
  {
    hide Covered, TermChunks;
    CoveredOne(t);
    CoveredSnoc([t], u);
    assert [t] + [u] == [t, u];
  }
}
