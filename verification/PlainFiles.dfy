/** The reference the mount must refine: inodes with bytes, nothing about hashes, staging or
    caches. */
module PlainFiles {
  import opened Basics
  import opened XorbFormat

  /** `names` are the taken (parent, name) pairs; `unsynced` the inodes edited since they were last
      written back. */
  datatype Plain = Plain(
    files: map<nat, Bytes>, dirs: set<nat>, names: set<(nat, string)>, next: nat, unsynced: set<nat>)

  datatype Op =
    | Create(parent: nat, name: string)
    | Write(ino: nat, offset: int, data: Bytes)
    | SetSize(ino: nat, size: nat)
    | Read(ino: nat, offset: int, size: nat)
    | Fsync(ino: nat)
    | Flush(ino: nat)
    | Release(ino: nat)

  datatype Reply = Created(ino: nat) | Written(count: nat) | Attr(size: nat) | Data(bytes: Bytes) | Done | NoEntry

  /** Zero bytes. */
  function Zeros(n: nat): (r: Bytes)
    ensures |r| == n && forall i :: 0 <= i < n ==> r[i] == 0
  {
    seq(n, _ => 0)
  }

  /** Cut off or zero-extend. */
  function Resize(b: Bytes, n: nat): (r: Bytes)
    ensures |r| == n
    ensures forall i :: 0 <= i < n ==> r[i] == if i < |b| then b[i] else 0
  {
    if n <= |b| then b[..n] else b + Zeros(n - |b|)
  }

  /** The file after writing `data` at `off`: the data where it was written, the old bytes
      elsewhere, zeros in a gap. */
  function WriteAt(b: Bytes, off: nat, data: Bytes): (r: Bytes)
    ensures |r| == Max(|b|, off + |data|)
    ensures forall i :: 0 <= i < |r| ==>
              r[i] == if off <= i < off + |data| then data[i - off] else if i < |b| then b[i] else 0
  {
    var grown := if |b| < off + |data| then Resize(b, off + |data|) else b;
    grown[..off] + data + grown[off + |data|..]
  }

  /** The part of `[off, off + size)` that exists. */
  function Slice(b: Bytes, off: nat, size: nat): (r: Bytes)
    ensures |r| == Max(0, Min(size, |b| - off))
    ensures forall i :: 0 <= i < |r| ==> off + i < |b| && r[i] == b[off + i]
  {
    var start := Min(off, |b|);
    b[start..Min(start + size, |b|)]
  }

  /** What the kernel guarantees of a request: names it creates are free, files it edits exist. */
  predicate Legal(p: Plain, op: Op) {
    match op
    case Create(parent, name) => parent in p.dirs && (parent, name) !in p.names && '/' !in name
    case Write(ino, _, _) => ino in p.files
    case SetSize(ino, _) => ino in p.files
    case _ => true
  }

  function Edit(p: Plain, ino: nat, b: Bytes): Plain {
    p.(files := p.files[ino := b], unsynced := p.unsynced + {ino})
  }

  function PlainStep(p: Plain, op: Op): (Plain, Reply) {
    match op
    case Create(parent, name) =>
      (Plain(p.files[p.next := []], p.dirs, p.names + {(parent, name)}, p.next + 1, p.unsynced + {p.next}),
        Created(p.next))
    case Write(ino, offset, data) =>
      if ino !in p.files then (p, NoEntry)
      else (Edit(p, ino, WriteAt(p.files[ino], Max(offset, 0), data)), Written(|data|))
    case SetSize(ino, size) =>
      if ino !in p.files then (p, NoEntry)
      else (Edit(p, ino, Resize(p.files[ino], size)), Attr(size))
    case Read(ino, offset, size) =>
      (p, if ino in p.files then Data(Slice(p.files[ino], Max(offset, 0), size)) else NoEntry)
    case Fsync(ino) => (p.(unsynced := p.unsynced - {ino}), Done)
    case Flush(ino) => (p.(unsynced := p.unsynced - {ino}), Done)
    case Release(ino) => (p.(unsynced := p.unsynced - {ino}), Done)
  }

  function PlainRun(p: Plain, ops: seq<Op>): (Plain, seq<Reply>) {
    if |ops| == 0 then (p, []) else
    var (q, replies) := PlainRun(p, ops[..|ops| - 1]);
    var (r, reply) := PlainStep(q, ops[|ops| - 1]);
    (r, replies + [reply])
  }

  predicate LegalRun(p: Plain, ops: seq<Op>) {
    |ops| == 0 || (LegalRun(p, ops[..|ops| - 1]) && Legal(PlainRun(p, ops[..|ops| - 1]).0, ops[|ops| - 1]))
  }

  /** The file a request may write back. */
  function WrittenBack(op: Op): set<nat> {
    match op
    case Fsync(ino) => {ino}
    case Flush(ino) => {ino}
    case Release(ino) => {ino}
    case _ => {}
  }

  /** Edited content that cuts into pairwise distinct chunks. */
  ghost predicate Storable(P: Primitives, p: Plain, ino: nat) {
    ino in p.files && ino in p.unsynced ==> Distinct(P.chunker(p.files[ino]))
  }

  /** Every write-back of the run is of storable content. */
  ghost predicate StorableRun(P: Primitives, p: Plain, ops: seq<Op>) {
    forall k :: 0 <= k < |ops| ==>
      forall ino :: ino in WrittenBack(ops[k]) ==> Storable(P, PlainRun(p, ops[..k]).0, ino)
  }

  /** The file an operation edits. */
  function Edits(p: Plain, op: Op): set<nat> {
    match op
    case Create(_, _) => {p.next}
    case Write(ino, _, _) => {ino}
    case SetSize(ino, _) => {ino}
    case _ => {}
  }

  function RunEdits(p: Plain, ops: seq<Op>): set<nat> {
    if |ops| == 0 then {} else
    RunEdits(p, ops[..|ops| - 1]) + Edits(PlainRun(p, ops[..|ops| - 1]).0, ops[|ops| - 1])
  }

  /** Every file of a run was there before or is one of those it edited. */
  lemma {:induction false} RunFilesEdited(p: Plain, ops: seq<Op>)
    ensures PlainRun(p, ops).0.files.Keys <= p.files.Keys + RunEdits(p, ops)
  {
    if |ops| > 0 {
      RunFilesEdited(p, ops[..|ops| - 1]);
    }
  }

  /** A run that creates no such name does not have it in the end. */
  lemma {:induction false} RunNames(p: Plain, ops: seq<Op>, parent: nat, name: string)
    requires (parent, name) !in p.names && Create(parent, name) !in ops
    ensures (parent, name) !in PlainRun(p, ops).0.names
  {
    if |ops| > 0 {
      var init, last := ops[..|ops| - 1], ops[|ops| - 1];
      assert last in ops && forall op :: op in init ==> op in ops;
      RunNames(p, init, parent, name);
    }
  }

  predicate Touches(op: Op, ino: nat) {
    (op.Write? && op.ino == ino) || (op.SetSize? && op.ino == ino)
  }

  /** Read-your-writes over any history: what the last write put there is what a later read of that
      range gives, as long as nothing in between edits the file. */
  lemma {:induction false} UntouchedStays(p: Plain, ops: seq<Op>, ino: nat)
    requires ino in p.files && ino < p.next
    requires forall i :: 0 <= i < |ops| ==> !Touches(ops[i], ino)
    ensures var q := PlainRun(p, ops).0;
            ino in q.files && q.files[ino] == p.files[ino] && p.next <= q.next
  {
    if |ops| > 0 {
      UntouchedStays(p, ops[..|ops| - 1], ino);
    }
  }

  lemma ReadYourWrite(p: Plain, ino: nat, off: nat, data: Bytes, ops: seq<Op>)
    requires ino in p.files && ino < p.next
    requires forall i :: 0 <= i < |ops| ==> !Touches(ops[i], ino)
    ensures PlainStep(PlainRun(PlainStep(p, Write(ino, off, data)).0, ops).0, Read(ino, off, |data|)).1 == Data(data)
  {
    hide WriteAt, Slice, PlainRun;
    SliceOfWrite(p.files[ino], off, data);
    UntouchedStays(PlainStep(p, Write(ino, off, data)).0, ops, ino);
  }

  lemma SliceOfWrite(b: Bytes, off: nat, data: Bytes)
    ensures Slice(WriteAt(b, off, data), off, |data|) == data
  {
  }

  // ---- What the answers mean ----

  /** Inode numbers in use are below the next free one. */
  ghost predicate NumbersUsed(p: Plain) {
    (forall i :: i in p.files ==> i < p.next) && (forall i :: i in p.dirs ==> i < p.next)
  }

  lemma {:induction false} RunNumbers(p: Plain, ops: seq<Op>)
    requires NumbersUsed(p)
    ensures NumbersUsed(PlainRun(p, ops).0)
  {
    hide WriteAt, Resize, Slice;
    if |ops| > 0 {
      RunNumbers(p, ops[..|ops| - 1]);
    }
  }

  /** The answer to each request against the files before and after it: a created inode is new and empty, a
      written count is the length of the data and covers it, a size is the length of the file, data are
      the bytes there are; and no request changes a file it does not name. */
  ghost predicate AnswerFits(p: Plain, op: Op, q: Plain, reply: Reply) {
    && (forall i :: i in p.files && !Touches(op, i) ==> i in q.files && q.files[i] == p.files[i])
    && match op
       case Create(parent, name) =>
         && reply.Created? && reply.ino !in p.files && reply.ino !in p.dirs && (parent, name) in q.names
         && q.files.Keys == p.files.Keys + {reply.ino} && q.files[reply.ino] == []
       case Write(ino, offset, data) =>
         if ino !in p.files then reply == NoEntry && q == p else
         && reply.Written? && reply.count == |data| && ino in q.files
         && var off := if offset < 0 then 0 else offset;
            && off + |data| <= |q.files[ino]| && q.files[ino][off..off + |data|] == data
            && |q.files[ino]| == (if |p.files[ino]| < off + |data| then off + |data| else |p.files[ino]|)
       case SetSize(ino, size) =>
         if ino !in p.files then reply == NoEntry && q == p else
         && reply.Attr? && ino in q.files && reply.size == |q.files[ino]| == size
         && forall i :: 0 <= i < size ==> q.files[ino][i] == if i < |p.files[ino]| then p.files[ino][i] else 0
       case Read(ino, offset, size) =>
         && q == p
         && if ino !in p.files then reply == NoEntry else
            var off := if offset < 0 then 0 else offset;
            && reply.Data? && |reply.bytes| <= size
            && (forall i :: 0 <= i < |reply.bytes| ==>
                  off + i < |p.files[ino]| && reply.bytes[i] == p.files[ino][off + i])
            && (|reply.bytes| < size ==> |p.files[ino]| <= off + |reply.bytes|)
       case Fsync(ino) => reply == Done && q.files == p.files && q.unsynced == p.unsynced - {ino}
       case Flush(ino) => reply == Done && q.files == p.files && q.unsynced == p.unsynced - {ino}
       case Release(ino) => reply == Done && q.files == p.files && q.unsynced == p.unsynced - {ino}
  }

  lemma StepFits(p: Plain, op: Op)
    requires NumbersUsed(p)
    ensures AnswerFits(p, op, PlainStep(p, op).0, PlainStep(p, op).1)
  {
  }

  /** Every answer of every run fits the files before and after its request. */
  lemma RunFits(p: Plain, ops: seq<Op>, k: nat)
    requires NumbersUsed(p) && k < |ops|
    ensures |PlainRun(p, ops).1| == |ops|
    ensures AnswerFits(PlainRun(p, ops[..k]).0, ops[k], PlainRun(p, ops[..k + 1]).0, PlainRun(p, ops).1[k])
  {
    hide PlainStep, AnswerFits, NumbersUsed;
    RunNumbers(p, ops[..k]);
    StepFits(PlainRun(p, ops[..k]).0, ops[k]);
    ReplyAt(p, ops, k);
  }

  lemma {:induction false} ReplyAt(p: Plain, ops: seq<Op>, k: nat)
    requires k < |ops|
    ensures |PlainRun(p, ops).1| == |ops| && PlainRun(p, ops).1[k] == PlainStep(PlainRun(p, ops[..k]).0, ops[k]).1
    ensures PlainRun(p, ops[..k + 1]).0 == PlainStep(PlainRun(p, ops[..k]).0, ops[k]).0
  {
    hide PlainStep;
    var init := ops[..|ops| - 1];
    assert ops[..k + 1][..k] == ops[..k];
    if k < |ops| - 1 {
      assert init[..k] == ops[..k];
      ReplyAt(p, init, k);
    } else {
      RepliesCount(p, init);
    }
  }

  lemma {:induction false} RepliesCount(p: Plain, ops: seq<Op>)
    ensures |PlainRun(p, ops).1| == |ops|
  {
    hide PlainStep;
    if |ops| > 0 { RepliesCount(p, ops[..|ops| - 1]); }
  }

  /** Create a file, write at the inode the answer names, read there: the data come back, whatever requests
      for other files come in between. */
  lemma CreateWriteRead(p: Plain, parent: nat, name: string, before: seq<Op>, off: nat, data: Bytes, after: seq<Op>)
    requires NumbersUsed(p)
    requires var created := PlainStep(p, Create(parent, name)).1;
             created.Created? ==> forall op :: op in before + after ==> !Touches(op, created.ino)
    ensures var (q, created) := PlainStep(p, Create(parent, name));
            && created.Created? && created.ino !in p.files
            && var written := PlainStep(PlainRun(q, before).0, Write(created.ino, off, data));
               && written.1 == Written(|data|)
               && PlainStep(PlainRun(written.0, after).0, Read(created.ino, off, |data|)).1 == Data(data)
  {
    hide WriteAt, Slice, PlainRun;
    var (q, created) := PlainStep(p, Create(parent, name));
    UntouchedStays(q, before, created.ino);
    ReadYourWrite(PlainRun(q, before).0, created.ino, off, data, after);
  }
}
