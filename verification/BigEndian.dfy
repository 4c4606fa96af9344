/**
 Fixed-width big-endian integers, as encoding/binary's BigEndian writes and reads
 them. Writing a number that does not fit keeps its low bytes, which is what Go's
 conversion to a narrower unsigned type does before the write.
 */
module BigEndian {
  import opened Basics

  function Pow256(k: nat): (p: nat)
    ensures p >= 1
  {
    if k == 0 then 1 else 256 * Pow256(k - 1)
  }

  function Put(n: nat, k: nat): (s: Bytes)
    ensures |s| == k
  {
    if k == 0 then [] else Put(n / 256, k - 1) + [n % 256]
  }

  function Get(s: Bytes): nat {
    if s == [] then 0 else Get(s[..|s| - 1]) * 256 + s[|s| - 1]
  }

  lemma {:induction false} GetBound(s: Bytes)
    ensures Get(s) < Pow256(|s|)
  {
    if s == [] {
    } else {
      GetBound(s[..|s| - 1]);
    }
  }

  /** What is read back is the written number modulo the field's width. */
  lemma {:induction false} GetPut(n: nat, k: nat)
    ensures Get(Put(n, k)) < Pow256(k)
    ensures n < Pow256(k) ==> Get(Put(n, k)) == n
  {
    if k == 0 {
    } else {
      GetPut(n / 256, k - 1);
      assert Put(n, k)[..k - 1] == Put(n / 256, k - 1);
    }
  }

  lemma {:induction false} Widths()
    ensures Pow256(2) == 0x1_0000
    ensures Pow256(4) == 0x1_0000_0000
    ensures Pow256(8) == 0x1_0000_0000_0000_0000
  {
    assert Pow256(1) == 256 && Pow256(3) == 0x100_0000;
    assert Pow256(5) == 0x100_0000_0000 && Pow256(6) == 0x1_0000_0000_0000 && Pow256(7) == 0x100_0000_0000_0000;
  }
}
