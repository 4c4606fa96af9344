/**
 Types and sequence facts shared by every module of the model.
 Byte slices, and the strings of the wire formats and of names, are sequences of bytes; texts
 that are only compared and split, release tags and header lines, are of type `string`.
 */
module Basics {
  type byte = x: int | 0 <= x < 256
  type Bytes = seq<byte>
  type u16 = x: int | 0 <= x < 0x1_0000

  /** protocol.MaxSubdomainLen. */
  const MAX_SUBDOMAIN_LEN := 63

  datatype Option<+T> = None | Some(value: T)

  function Min(a: nat, b: nat): nat { if a < b then a else b }

  /** The bytes carried by a sequence of chunks, in order. */
  function Flat<T>(chunks: seq<seq<T>>): seq<T> {
    if chunks == [] then [] else chunks[0] + Flat(chunks[1..])
  }

  lemma {:induction false} FlatAppend<T>(a: seq<seq<T>>, b: seq<seq<T>>)
    ensures Flat(a + b) == Flat(a) + Flat(b)
  {
    if a == [] {
      assert a + b == b;
    } else {
      assert (a + b)[1..] == a[1..] + b;
      FlatAppend(a[1..], b);
    }
  }

  lemma {:induction false} FlatSnoc<T>(a: seq<seq<T>>, c: seq<T>)
    ensures Flat(a + [c]) == Flat(a) + c
  {
    FlatAppend(a, [c]);
    assert Flat([c]) == c + Flat<T>([]);
  }

  lemma {:induction false} FlatNone<T>(s: seq<seq<T>>)
    ensures s == [] ==> Flat(s) == []
  {
  }

  lemma {:induction false} FlatHead<T>(s: seq<seq<T>>)
    requires s != []
    ensures Flat(s) == s[0] + Flat(s[1..])
  {
  }

  lemma {:induction false} FlatPrefix<T>(a: seq<seq<T>>, b: seq<seq<T>>)
    requires a <= b
    ensures Flat(a) <= Flat(b)
  {
    assert b == a + b[|a|..];
    FlatAppend(a, b[|a|..]);
  }
}
