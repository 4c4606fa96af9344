/**
 Comparing release tags: dot-separated numbers after an optional "v".
 */
module Version {
  import opened Text

  const MAX_INT := 0x7FFF_FFFF_FFFF_FFFF

  /** The leading digits of a component. */
  function Leading(s: string): (r: string)
    ensures r <= s && forall i :: 0 <= i < |r| ==> Digit(r[i])
    ensures |r| < |s| ==> !Digit(s[|r|])
  {
    if s != [] && Digit(s[0]) then [s[0]] + Leading(s[1..]) else []
  }

  /** A component's number; -1 without a leading digit or beyond the range of int. */
  function Number(s: string): (n: int)
    ensures n >= -1
  {
    var d := Leading(s);
    if d == [] || Value(d) > MAX_INT then -1 else Value(d)
  }

  /** The i-th component, zero past the end. */
  function At(parts: seq<string>, i: nat): (n: int)
    ensures n >= -1
  {
    if i >= |parts| then 0 else Number(parts[i])
  }

  method NumAt(parts: seq<string>, i: nat) returns (n: int)
    ensures n == At(parts, i)
  {
    if i >= |parts| {
      return 0;
    }
    var s := parts[i];
    var j := 0;
    while j < |s| && Digit(s[j])
      invariant 0 <= j <= |Leading(s)|
    {
      j := j + 1;
    }
    assert s[..j] == Leading(s);
    if j == 0 {
      return -1;
    }
    var v := Value(s[..j]);
    if v > MAX_INT {
      return -1;
    }
    return v;
  }

  function Parts(tag: string): seq<string> {
    Split(if tag != [] && tag[0] == 'v' then tag[1..] else tag, '.')
  }

  /** The first component at which two tags part: equal and parsed before it. */
  ghost predicate PartAt(a: seq<string>, b: seq<string>, i: nat) {
    && (forall j: nat :: j < i ==> At(a, j) == At(b, j) >= 0)
    && (At(a, i) != At(b, i) || At(a, i) < 0)
  }

  ghost predicate Less(a: seq<string>, b: seq<string>) {
    exists i: nat :: PartAt(a, b, i) && At(a, i) < At(b, i)
  }

  lemma {:induction false} PartOnce(a: seq<string>, b: seq<string>, i: nat, k: nat)
    requires PartAt(a, b, i) && PartAt(a, b, k)
    ensures i == k
  {
    assert i < k ==> At(a, i) == At(b, i) && At(a, i) >= 0;
    assert k < i ==> At(a, k) == At(b, k) && At(a, k) >= 0;
  }

  method Newer(current: string, latest: string) returns (r: bool)
    ensures r == Less(Parts(current), Parts(latest))
  {
    if latest == current {
      return false;
    }
    var cur, lat := Parts(current), Parts(latest);
    var i := 0;
    while i < |cur| || i < |lat|
      invariant forall j: nat :: j < i ==> At(cur, j) == At(lat, j) >= 0
      decreases |cur| + |lat| - i
    {
      var c := NumAt(cur, i);
      var l := NumAt(lat, i);
      if c != l || c < 0 {
        assert PartAt(cur, lat, i);
        if k: nat :| PartAt(cur, lat, k) && At(cur, k) < At(lat, k) {
          PartOnce(cur, lat, i, k);
        }
      }
      if l < 0 {
        return false;
      }
      if c < 0 {
        return true;
      }
      if l != c {
        return l > c;
      }
      i := i + 1;
    }
    return false;
  }

  // ---- The order is the lexicographic one -------------------------------

  /** The first n components, zero-extended and cut before the first that does not parse. */
  function Vector(parts: seq<string>, n: nat): (v: seq<int>)
    ensures |v| <= n && forall i :: 0 <= i < |v| ==> v[i] == At(parts, i) >= 0
    ensures |v| < n ==> At(parts, |v|) < 0
  {
    if n == 0 then []
    else
      var v := Vector(parts, n - 1);
      if |v| < n - 1 || At(parts, n - 1) < 0 then v else v + [At(parts, n - 1)]
  }

  /** The usual strict lexicographic order: a proper prefix, or smaller where they differ. */
  predicate LexLess(a: seq<int>, b: seq<int>) {
    b != [] && (a == [] || a[0] < b[0] || (a[0] == b[0] && LexLess(a[1..], b[1..])))
  }

  lemma {:induction false} LexAt(a: seq<int>, b: seq<int>, i: nat)
    requires i <= |a| && i <= |b| && a[..i] == b[..i]
    ensures LexLess(a, b) == LexLess(a[i..], b[i..])
  {
    if i > 0 {
      assert a[0] == a[..i][0] == b[..i][0] == b[0];
      assert a[1..][..i - 1] == a[..i][1..] == b[..i][1..] == b[1..][..i - 1];
      LexAt(a[1..], b[1..], i - 1);
      assert a[1..][i - 1..] == a[i..] && b[1..][i - 1..] == b[i..];
    } else {
      assert a[i..] == a && b[i..] == b;
    }
  }

  /** How far two vectors agree. */
  function Common(a: seq<int>, b: seq<int>): (i: nat)
    ensures i <= |a| && i <= |b| && a[..i] == b[..i]
    ensures i < |a| && i < |b| ==> a[i] != b[i]
  {
    if a == [] || b == [] || a[0] != b[0] then 0
    else
      var k := Common(a[1..], b[1..]);
      assert a[..k + 1] == [a[0]] + a[1..][..k] && b[..k + 1] == [b[0]] + b[1..][..k];
      k + 1
  }

  /** `newer` is the strict lexicographic order on zero-extended vectors cut at the first
      component that does not parse. */
  lemma {:induction false} LessIsLex(a: seq<string>, b: seq<string>, n: nat)
    requires n >= |a| && n >= |b|
    ensures Less(a, b) <==> LexLess(Vector(a, n), Vector(b, n))
  {
    hide Vector, Common, Number;
    var x, y := Vector(a, n), Vector(b, n);
    var i := Common(x, y);
    LexAt(x, y, i);
    assert forall j: nat :: j < i ==> At(a, j) == x[..i][j] == y[..i][j] == At(b, j);
    if i < n {
      assert PartAt(a, b, i);
      if k: nat :| PartAt(a, b, k) && At(a, k) < At(b, k) {
        PartOnce(a, b, i, k);
      }
    } else {
      assert forall k: nat :: At(a, k) == At(b, k);
    }
  }

  // ---- Tags made of numbers ---------------------------------------------

  lemma {:induction false} LeadingIs(d: string, t: string)
    requires (forall i :: 0 <= i < |d| ==> Digit(d[i])) && (t == [] || !Digit(t[0]))
    ensures Leading(d + t) == d
  {
    if d == [] {
      assert d + t == t;
    } else {
      assert (d + t)[1..] == d[1..] + t;
      LeadingIs(d[1..], t);
    }
  }

  /** A written number is read back, whatever follows its digits, if and only if it is within
      the range of int. */
  lemma {:induction false} NumberIff(n: nat, t: string)
    requires t == [] || !Digit(t[0])
    ensures Number(Numeral(n) + t) == if n <= MAX_INT then n else -1
    ensures Number(Numeral(n) + t) == n <==> n <= MAX_INT
  {
    LeadingIs(Numeral(n), t);
    NumeralValue(n);
  }

  /** Numbers joined by dots. */
  function Dotted(ns: seq<nat>): string
    requires ns != []
  {
    Numeral(ns[0]) + if |ns| == 1 then [] else ['.'] + Dotted(ns[1..])
  }

  /** A release tag, with or without its "v". */
  function Tag(v: bool, ns: seq<nat>): string
    requires ns != []
  {
    (if v then ['v'] else []) + Dotted(ns)
  }

  lemma {:induction false} DottedParts(ns: seq<nat>)
    requires ns != []
    ensures Dotted(ns) != [] && Digit(Dotted(ns)[0])
    ensures var p := Split(Dotted(ns), '.'); |p| == |ns| && forall i :: 0 <= i < |ns| ==> p[i] == Numeral(ns[i])
  {
    var first := Numeral(ns[0]);
    assert '.' !in first;
    if |ns| == 1 {
      assert Dotted(ns) == first;
    } else {
      DottedParts(ns[1..]);
      assert Dotted(ns) == first + ['.'] + Dotted(ns[1..]);
      SplitFirst(first, Dotted(ns[1..]), '.');
    }
  }

  predicate InRange(ns: seq<nat>) { forall i :: 0 <= i < |ns| ==> ns[i] <= MAX_INT }

  /** The i-th number, zero past the end. */
  function NumberAt(ns: seq<nat>, i: nat): nat { if i < |ns| then ns[i] else 0 }

  lemma {:induction false} TagAt(v: bool, ns: seq<nat>, i: nat)
    requires ns != [] && InRange(ns)
    ensures At(Parts(Tag(v, ns)), i) == NumberAt(ns, i)
  {
    DottedParts(ns);
    assert v ==> Tag(v, ns)[1..] == Dotted(ns);
    assert !v ==> Tag(v, ns) == Dotted(ns);
    if i < |ns| {
      NumberIff(ns[i], []);
      assert Numeral(ns[i]) + [] == Numeral(ns[i]);
    }
  }

  /** The numbers of the first are below those of the second from their i-th on. */
  ghost predicate LowerAt(a: seq<nat>, b: seq<nat>, i: nat) {
    NumberAt(a, i) < NumberAt(b, i) && forall j: nat :: j < i ==> NumberAt(a, j) == NumberAt(b, j)
  }

  lemma {:induction false} AsNumbers(p: seq<string>, a: seq<nat>, q: seq<string>, b: seq<nat>, i: nat)
    requires forall j: nat :: At(p, j) == NumberAt(a, j) && At(q, j) == NumberAt(b, j)
    ensures PartAt(p, q, i) && At(p, i) < At(q, i) <==> LowerAt(a, b, i)
  {
    hide At, NumberAt;
  }

  /** Tags are ordered as their numbers are: the first that differs decides, a missing one is
      zero, and neither the "v" nor the number of digits matters. */
  lemma {:induction false} TagsAsNumbers(v: bool, a: seq<nat>, w: bool, b: seq<nat>)
    requires a != [] && b != [] && InRange(a) && InRange(b)
    ensures Less(Parts(Tag(v, a)), Parts(Tag(w, b))) <==> exists i: nat :: LowerAt(a, b, i)
  {
    hide Parts, At, Tag, NumberAt, InRange, LowerAt, PartAt;
    var p, q := Parts(Tag(v, a)), Parts(Tag(w, b));
    forall i: nat ensures At(p, i) == NumberAt(a, i) && At(q, i) == NumberAt(b, i) {
      TagAt(v, a, i);
      TagAt(w, b, i);
    }
    forall i: nat ensures PartAt(p, q, i) && At(p, i) < At(q, i) <==> LowerAt(a, b, i) {
      AsNumbers(p, a, q, b, i);
    }
  }

  // ---- No chain of updates can cycle ------------------------------------

  lemma {:induction false} LessIrreflexive(a: seq<string>)
    ensures !Less(a, a)
  {
  }

  lemma {:induction false} LessTransitive(a: seq<string>, b: seq<string>, c: seq<string>)
    requires Less(a, b) && Less(b, c)
    ensures Less(a, c)
  {
    var i: nat :| PartAt(a, b, i) && At(a, i) < At(b, i);
    var k: nat :| PartAt(b, c, k) && At(b, k) < At(c, k);
    var m := if i < k then i else k;
    assert forall j: nat :: j < m ==> At(a, j) == At(b, j) == At(c, j) >= 0;
    assert m < i ==> At(a, m) == At(b, m);
    assert m < k ==> At(b, m) == At(c, m);
    assert PartAt(a, c, m);
  }

  lemma {:induction false} LessAsymmetric(a: seq<string>, b: seq<string>)
    requires Less(a, b)
    ensures !Less(b, a)
  {
    if Less(b, a) {
      LessTransitive(a, b, a);
      LessIrreflexive(a);
    }
  }

  /** The update from the j-th tag to the next. */
  ghost predicate UpdateAt(tags: seq<string>, j: nat)
    requires j + 1 < |tags|
  {
    Less(Parts(tags[j]), Parts(tags[j + 1]))
  }

  /** Installing ever newer releases never leads back to an earlier one. */
  lemma {:induction false} NoUpdateCycle(tags: seq<string>, i: nat, k: nat)
    requires i < k < |tags| && forall j :: 0 <= j < |tags| - 1 ==> UpdateAt(tags, j)
    ensures Less(Parts(tags[i]), Parts(tags[k])) && tags[i] != tags[k]
    decreases k - i
  {
    hide Parts, Less;
    assert UpdateAt(tags, k - 1);
    if i == k - 1 {
    } else {
      NoUpdateCycle(tags, i, k - 1);
      LessTransitive(Parts(tags[i]), Parts(tags[k - 1]), Parts(tags[k]));
    }
    LessIrreflexive(Parts(tags[i]));
  }
}
