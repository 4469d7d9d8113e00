/** Chunk ranges are end-exclusive, byte ranges end-inclusive.  This module follows one term from
    its chunk range through the `Range` header text, the server's header parser and the blob
    store's clamped read, down to the decoded chunks. */
module ByteRanges {
  import opened Basics
  import opened XorbFormat

  const RANGE_PREFIX := "bytes="

  predicate IsDigit(c: char) {
    '0' <= c <= '9'
  }

  function Digit(c: char): nat
    requires IsDigit(c)
  {
    c as int - '0' as int
  }

  predicate AllDigits(s: string) {
    forall i :: 0 <= i < |s| ==> IsDigit(s[i])
  }

  function DecimalValue(s: string): nat
    requires AllDigits(s)
  {
    if |s| == 0 then 0 else DecimalValue(s[..|s| - 1]) * 10 + Digit(s[|s| - 1])
  }

  function Decimal(n: nat): (s: string)
    ensures |s| > 0 && AllDigits(s)
  {
    var last := [('0' as int + n % 10) as char];
    if n < 10 then last else Decimal(n / 10) + last
  }

  /** `str::parse::<u64>`: an optional plus sign, then at least one digit, and no overflow. */
  function ParseU64(s: string): Option<U64> {
    var digits := if |s| > 0 && s[0] == '+' then s[1..] else s;
    if |digits| == 0 || !AllDigits(digits) || DecimalValue(digits) >= U64_LIMIT then None
    else Some(DecimalValue(digits))
  }

  /** Index of the first `c` in `s`, or `|s|`. */
  function IndexOf(s: string, c: char): (i: nat)
    ensures i <= |s|
    ensures i < |s| ==> s[i] == c
    ensures c !in s[..i]
  {
    if |s| == 0 || s[0] == c then 0 else
    var rest := IndexOf(s[1..], c);
    assert s[..rest + 1] == [s[0]] + s[1..][..rest];
    rest + 1
  }

  /** The server's `parse_range`; `None` is the 416 answer.  A bounded header never yields a byte
      outside the object. */
  function ParseRange(header: Option<string>, total: nat): (r: Option<(nat, nat)>)
    ensures r.Some? && header.Some? ==> r.value.0 <= r.value.1 < total
    ensures header.None? ==> r == Some((0, Max(total - 1, 0)))
  {
    if header.None? then Some((0, Max(total - 1, 0))) else
    var h := header.value;
    if !(RANGE_PREFIX <= h) then None else
    var spec := h[|RANGE_PREFIX|..];
    var dash := IndexOf(spec, '-');
    if dash == |spec| then None else
    var a, b := spec[..dash], spec[dash + 1..];
    var start := ParseU64(a);
    var end := if |b| == 0 then Some(Max(total - 1, 0)) else ParseU64(b);
    if start.None? || end.None? || start.value > end.value || start.value >= total then None
    else Some((start.value, Min(end.value, Max(total - 1, 0))))
  }

  /** The header the agent sends for an inclusive byte range. */
  function RangeHeader(first: nat, last: nat): string {
    RANGE_PREFIX + Decimal(first) + "-" + Decimal(last)
  }

  /** `LocalFsBlobStore::get_range`: the bytes at positions `first..=last` that exist.  A parsed
      header puts `last` inside the object, so the source's `end + 1` cannot overflow. */
  function GetRange(data: Bytes, first: nat, last: nat): (r: Bytes)
    ensures forall k :: 0 <= k < |r| ==> first + k <= last && first + k < |data| && r[k] == data[first + k]
    ensures |r| == if first <= last && first < |data| then Min(last + 1, |data|) - first else 0
  {
    var lo := Min(first, |data|);
    var hi := Min(last + 1, |data|);
    data[lo..Max(hi, lo)]
  }

  lemma {:induction false} DecimalRoundTrip(n: nat)
    ensures DecimalValue(Decimal(n)) == n
  {
    var s := Decimal(n);
    if n >= 10 {
      DecimalRoundTrip(n / 10);
      assert s[..|s| - 1] == Decimal(n / 10);
    } else {
      assert s[..|s| - 1] == [];
    }
  }

  lemma ParseDecimal(n: nat)
    ensures ParseU64(Decimal(n)) == if n < U64_LIMIT then Some(n) else None
  {
    DecimalRoundTrip(n);
  }

  lemma {:induction false} IndexOfSplit(a: string, b: string, c: char)
    requires c !in a
    ensures IndexOf(a + [c] + b, c) == |a|
  {
    if |a| > 0 {
      IndexOfSplit(a[1..], b, c);
      assert (a + [c] + b)[1..] == a[1..] + [c] + b;
    }
  }

  /** Printing an inclusive range and parsing it against an object of `total` bytes: the whole
      behaviour of section 14.1.2 of RFC 9110 for a `first-last` spec, clamped at the end. */
  lemma ParseFormattedRange(first: U64, last: U64, total: nat)
    ensures ParseRange(Some(RangeHeader(first, last)), total)
         == if first <= last && first < total then Some((first, Min(last, total - 1))) else None
  {
    var a, b := Decimal(first), Decimal(last);
    var h := RangeHeader(first, last);
    var spec := h[|RANGE_PREFIX|..];
    assert spec == a + "-" + b;
    assert '-' !in a by { assert !IsDigit('-'); }
    IndexOfSplit(a, b, '-');
    assert spec[..|a|] == a && spec[|a| + 1..] == b;
    ParseDecimal(first);
    ParseDecimal(last);
  }

  /** The open-ended form asks for everything from `first` on. */
  lemma ParseOpenRange(first: U64, total: nat)
    ensures ParseRange(Some(RANGE_PREFIX + Decimal(first) + "-"), total)
         == if first < total then Some((first, total - 1)) else None
  {
    var a := Decimal(first);
    var spec := (RANGE_PREFIX + a + "-")[|RANGE_PREFIX|..];
    assert spec == a + "-" + "";
    assert '-' !in a by { assert !IsDigit('-'); }
    IndexOfSplit(a, "", '-');
    assert spec[..|a|] == a && spec[|a| + 1..] == "";
    ParseDecimal(first);
  }

  // ---- The header text, said without the parser ----

  function Pow10(n: nat): nat {
    if n == 0 then 1 else 10 * Pow10(n - 1)
  }

  /** Digits weighted by descending powers of ten. */
  function Weighted(ds: seq<nat>): nat {
    if |ds| == 0 then 0 else ds[0] * Pow10(|ds| - 1) + Weighted(ds[1..])
  }

  /** Positional decimal notation: at least one digit, and together they make `n`. */
  ghost predicate Denotes(s: string, n: nat) {
    exists ds: seq<nat> :: Spells(s, ds) && n == Weighted(ds)
  }

  ghost predicate Spells(s: string, ds: seq<nat>) {
    0 < |s| == |ds| && forall i :: 0 <= i < |s| ==> ds[i] < 10 && s[i] == "0123456789"[ds[i]]
  }

  /** A number as the header may give it: with or without a plus sign, below two to the sixty-four. */
  ghost predicate Number(s: string, n: nat) {
    n < 18446744073709551616 && (Denotes(s, n) || (|s| > 0 && s[0] == '+' && Denotes(s[1..], n)))
  }

  /** The text "bytes=`a`-`b`" asks for the bytes from `first` on, up to `last` if one is given. */
  ghost predicate AsksIn(h: string, a: string, b: string, first: nat, last: Option<nat>) {
    h == "bytes=" + a + "-" + b && Number(a, first) && if last.None? then b == "" else Number(b, last.value)
  }

  ghost predicate Asks(h: string, first: nat, last: Option<nat>) {
    exists a, b :: AsksIn(h, a, b, first, last)
  }

  lemma {:induction false} WeightedSnoc(ds: seq<nat>, d: nat)
    ensures Weighted(ds + [d]) == Weighted(ds) * 10 + d
  {
    if |ds| == 0 {
      assert ds + [d] == [d] && [d][1..] == [];
      assert Weighted([d]) == d * Pow10(0) + Weighted([]);
    } else {
      WeightedSnoc(ds[1..], d);
      assert (ds + [d])[1..] == ds[1..] + [d];
      ScaleUp(ds[0], Pow10(|ds| - 1));
    }
  }

  lemma ScaleUp(d: nat, p: nat)
    ensures d * (10 * p) == d * p * 10
  {
  }

  lemma {:induction false} SpellsValue(s: string, ds: seq<nat>)
    requires |s| == |ds| && forall i :: 0 <= i < |s| ==> ds[i] < 10 && s[i] == "0123456789"[ds[i]]
    ensures AllDigits(s) && DecimalValue(s) == Weighted(ds)
  {
    if |s| > 0 {
      var n := |s| - 1;
      SpellsValue(s[..n], ds[..n]);
      WeightedSnoc(ds[..n], ds[n]);
      assert ds == ds[..n] + [ds[n]];
      assert forall i :: 0 <= i < n ==> IsDigit(s[..n][i]);
    }
  }

  /** The parser's value of a digit string is its positional value. */
  lemma DenotesExactly(s: string, n: nat)
    ensures Denotes(s, n) <==> |s| > 0 && AllDigits(s) && DecimalValue(s) == n
  {
    hide DecimalValue, Weighted;
    if |s| > 0 && AllDigits(s) {
      var ds := seq(|s|, i requires 0 <= i < |s| => Digit(s[i]));
      assert Spells(s, ds);
      SpellsValue(s, ds);
    }
    if Denotes(s, n) {
      var ds :| Spells(s, ds) && n == Weighted(ds);
      SpellsValue(s, ds);
    }
  }

  lemma NumberExactly(s: string, n: nat)
    ensures Number(s, n) <==> ParseU64(s) == Some(n)
    ensures Number(s, n) ==> '-' !in s
  {
    hide DecimalValue, Denotes;
    DenotesExactly(s, n);
    if |s| > 0 { DenotesExactly(s[1..], n); }
    assert !IsDigit('-') && !IsDigit('+');
    if Number(s, n) {
      forall i | 0 <= i < |s|
        ensures s[i] != '-'
      {
        if s[0] == '+' && i > 0 { assert s[i] == s[1..][i - 1]; }
      }
    }
  }

  /** The answer a request for `first` up to `last` gets of an object of `total` bytes. */
  ghost predicate Granted(first: nat, last: Option<nat>, total: nat, r: (nat, nat)) {
    && first < total && (last.Some? ==> first <= last.value)
    && r == (first, if last.None? || total <= last.value then total - 1 else last.value)
  }

  lemma AsksParse(h: string, a: string, b: string, first: nat, last: Option<nat>, total: nat)
    requires AsksIn(h, a, b, first, last)
    ensures forall r :: ParseRange(Some(h), total) == Some(r) <==> Granted(first, last, total, r)
  {
    hide ParseU64, Number;
    NumberExactly(a, first);
    if last.Some? { NumberExactly(b, last.value); }
    assert h[|RANGE_PREFIX|..] == a + "-" + b;
    IndexOfSplit(a, b, '-');
    assert (a + "-" + b)[..|a|] == a && (a + "-" + b)[|a| + 1..] == b;
    if last.Some? { NumberNotEmpty(b, last.value); }
  }

  lemma NumberNotEmpty(s: string, n: nat)
    requires Number(s, n)
    ensures |s| > 0
  {
    hide Weighted;
  }

  lemma ParseAsks(h: string, total: nat) returns (a: string, b: string, first: nat, last: Option<nat>)
    requires ParseRange(Some(h), total).Some?
    ensures AsksIn(h, a, b, first, last)
  {
    hide ParseU64, Number;
    var spec := h[|RANGE_PREFIX|..];
    var dash := IndexOf(spec, '-');
    a, b := spec[..dash], spec[dash + 1..];
    first := ParseU64(a).value;
    last := if b == "" then None else Some(ParseU64(b).value);
    NumberExactly(a, first);
    if b != "" { NumberExactly(b, last.value); }
    assert spec == a + "-" + b;
    assert h == "bytes=" + spec;
  }

  /** Exactly which header texts are accepted, and with which answer; every other text is refused. */
  lemma ParseRangeExactly(h: string, total: nat, r: (nat, nat))
    ensures ParseRange(Some(h), total) == Some(r) <==>
            exists first, last :: Asks(h, first, last) && Granted(first, last, total, r)
  {
    hide ParseRange, Number, Granted;
    if ParseRange(Some(h), total) == Some(r) {
      var a, b, first, last := ParseAsks(h, total);
      AsksParse(h, a, b, first, last, total);
      assert Asks(h, first, last) && Granted(first, last, total, r);
    }
    if exists first, last :: Asks(h, first, last) && Granted(first, last, total, r) {
      var first, last :| Asks(h, first, last) && Granted(first, last, total, r);
      var a, b :| AsksIn(h, a, b, first, last);
      AsksParse(h, a, b, first, last, total);
    }
  }

  lemma {:induction false} DecimalCanonical(n: nat)
    ensures Denotes(Decimal(n), n) && (|Decimal(n)| > 1 ==> Decimal(n)[0] != '0')
  {
    DecimalRoundTrip(n);
    DenotesExactly(Decimal(n), n);
    hide Denotes, DecimalValue;
    if n >= 10 {
      DecimalCanonical(n / 10);
      if n / 10 < 10 { assert Decimal(n / 10)[0] == ('0' as int + n / 10) as char; }
    }
  }

  /** The text the agent sends: "bytes=", the two numbers without sign or leading zero, a dash between. */
  lemma HeaderText(first: U64, last: U64)
    ensures var a, b := Decimal(first), Decimal(last);
            && AsksIn(RangeHeader(first, last), a, b, first, Some(last))
            && (|a| > 1 ==> a[0] != '0') && (|b| > 1 ==> b[0] != '0') && a[0] != '+' && b[0] != '+'
  {
    hide Denotes;
    DecimalCanonical(first);
    DecimalCanonical(last);
    assert IsDigit(Decimal(first)[0]) && IsDigit(Decimal(last)[0]);
  }

  /** The byte range of a non-empty chunk range is non-empty and inside the blob, and reading it
      gives exactly the records of those chunks. */
  lemma RangeReadsRecords(P: Primitives, blob: Bytes, chunks: seq<Chunk>, offsets: seq<U32>, lo: nat, hi: nat)
    requires Encodes(P, blob, chunks, offsets) && lo < hi <= |chunks|
    ensures RecordStart(offsets, lo) < offsets[hi - 1] <= |blob|
    ensures GetRange(blob, RecordStart(offsets, lo), offsets[hi - 1] - 1)
         == blob[RecordStart(offsets, lo)..RecordStart(offsets, hi)]
  {
    OffsetsAscend(P, blob, chunks, offsets, lo, hi);
  }

  /** The whole path of one fetch.  For a chunk range `[lo, hi)` of a described blob, the
      translated range is non-empty, survives the header unchanged, and decoding `n` records of
      what it reads gives chunks `lo..lo+n`. */
  lemma FetchDecodesRange(P: Primitives, blob: Bytes, chunks: seq<Chunk>, offsets: seq<U32>, lo: nat, hi: nat, n: nat)
    requires Encodes(P, blob, chunks, offsets)
    requires lo < hi <= |chunks| && n <= hi - lo
    ensures RecordStart(offsets, lo) < offsets[hi - 1]
    ensures ParseRange(Some(RangeHeader(RecordStart(offsets, lo), offsets[hi - 1] - 1)), |blob|)
         == Some((RecordStart(offsets, lo), offsets[hi - 1] - 1))
    ensures DecodeRun(P, GetRange(blob, RecordStart(offsets, lo), offsets[hi - 1] - 1), n) == Some(chunks[lo..lo + n])
  {
    hide ParseRange, RangeHeader, DecodeRun, GetRange, RecordAt;
    RangeReadsRecords(P, blob, chunks, offsets, lo, hi);
    ParseFormattedRange(RecordStart(offsets, lo), offsets[hi - 1] - 1, |blob|);
    OffsetsAscend(P, blob, chunks, offsets, lo + n, hi);
    DecodeRunYieldsChunks(P, blob, chunks, offsets, lo, n, RecordStart(offsets, hi));
  }
}
