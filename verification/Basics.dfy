/** Bytes, results and the two list operations every other module uses: flattening a list of
    lists, and the telescoping total of their lengths. */
module Basics {

  newtype Byte = b: int | 0 <= b < 256

  type Bytes = seq<Byte>

  const U32_LIMIT: nat := 0x1_0000_0000
  const U64_LIMIT: nat := 0x1_0000_0000_0000_0000

  type U32 = n: nat | n < U32_LIMIT
  type U64 = n: nat | n < U64_LIMIT

  datatype Option<+T> = None | Some(value: T)

  datatype Result<+T, +E> = Ok(value: T) | Err(error: E)

  function Min(a: int, b: int): int {
    if a <= b then a else b
  }

  function Max(a: int, b: int): int {
    if a <= b then b else a
  }

  function Flatten<T>(parts: seq<seq<T>>): seq<T> {
    if |parts| == 0 then [] else parts[0] + Flatten(parts[1..])
  }

  function TotalLen<T>(parts: seq<seq<T>>): nat {
    if |parts| == 0 then 0 else |parts[0]| + TotalLen(parts[1..])
  }

  lemma AppendAssociates<T>(a: seq<T>, b: seq<T>, c: seq<T>)
    ensures a + (b + c) == a + b + c
  {
  }

  lemma {:induction false} FlattenConcat<T>(a: seq<seq<T>>, b: seq<seq<T>>)
    ensures Flatten(a + b) == Flatten(a) + Flatten(b)
  {
    if |a| == 0 {
      assert a + b == b;
    } else {
      FlattenConcat(a[1..], b);
      assert (a + b)[1..] == a[1..] + b;
      AppendAssociates(a[0], Flatten(a[1..]), Flatten(b));
    }
  }

  lemma FlattenOne<T>(part: seq<T>)
    ensures Flatten([part]) == part
  {
    assert Flatten([part][1..]) == [];
  }

  lemma FlattenSnoc<T>(a: seq<seq<T>>, part: seq<T>)
    ensures Flatten(a + [part]) == Flatten(a) + part
  {
    FlattenConcat(a, [part]);
    FlattenOne(part);
  }

  lemma {:induction false} TotalLenConcat<T>(a: seq<seq<T>>, b: seq<seq<T>>)
    ensures TotalLen(a + b) == TotalLen(a) + TotalLen(b)
  {
    if |a| == 0 {
      assert a + b == b;
    } else {
      TotalLenConcat(a[1..], b);
      assert (a + b)[1..] == a[1..] + b;
    }
  }

  lemma TotalLenSnoc<T>(a: seq<seq<T>>, part: seq<T>)
    ensures TotalLen(a + [part]) == TotalLen(a) + |part|
  {
    TotalLenConcat(a, [part]);
    assert [part][1..] == [];
    assert TotalLen([part]) == |part| + TotalLen([part][1..]);
  }

  /** Length of a slice as a difference of prefix totals. */
  lemma TotalLenSlice<T>(parts: seq<seq<T>>, lo: nat, hi: nat)
    requires lo <= hi <= |parts|
    ensures TotalLen(parts[..hi]) == TotalLen(parts[..lo]) + TotalLen(parts[lo..hi])
  {
    assert parts[..hi] == parts[..lo] + parts[lo..hi];
    TotalLenConcat(parts[..lo], parts[lo..hi]);
  }

  lemma {:induction false} FlattenLength<T>(parts: seq<seq<T>>)
    ensures |Flatten(parts)| == TotalLen(parts)
  {
    if |parts| != 0 {
      FlattenLength(parts[1..]);
    }
  }

  ghost predicate Distinct<T>(s: seq<T>) {
    forall i, j :: 0 <= i < j < |s| ==> s[i] != s[j]
  }

  ghost predicate SameLengths<T>(a: seq<seq<T>>, b: seq<seq<T>>) {
    |a| == |b| && forall i :: 0 <= i < |a| ==> |a[i]| == |b[i]|
  }

  /** Lists cut at the same places flatten to the same elements only if they are the same list. */
  lemma {:induction false} FlattenInjective<T>(a: seq<seq<T>>, b: seq<seq<T>>)
    requires SameLengths(a, b) && Flatten(a) == Flatten(b)
    ensures a == b
  {
    if |a| > 0 {
      assert a[0] == Flatten(a)[..|a[0]|] == Flatten(b)[..|b[0]|] == b[0];
      assert Flatten(a[1..]) == Flatten(a)[|a[0]|..] == Flatten(b)[|b[0]|..] == Flatten(b[1..]);
      FlattenInjective(a[1..], b[1..]);
      assert a == [a[0]] + a[1..] && b == [b[0]] + b[1..];
    }
  }
}
