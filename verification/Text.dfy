/**
 Text: decimal numbers, text as bytes, and splitting at a separator, as strings.Split does for
 a one-character separator.
 */
module Text {
  import opened Basics

  predicate Digit(c: char) { '0' <= c <= '9' }

  /** The number that digits denote. */
  function Value(s: string): (n: nat)
    requires forall i :: 0 <= i < |s| ==> Digit(s[i])
  {
    if s == [] then 0
    else
      assert Digit(s[|s| - 1]);
      10 * Value(s[..|s| - 1]) + (s[|s| - 1] as int - '0' as int)
  }

  /** A number as it is written in decimal. */
  function Numeral(n: nat): (s: string)
    ensures s != [] && forall i :: 0 <= i < |s| ==> Digit(s[i])
  {
    var last := [('0' as int + n % 10) as char];
    if n < 10 then last else Numeral(n / 10) + last
  }

  lemma {:induction false} NumeralValue(n: nat)
    ensures Value(Numeral(n)) == n && (n > 0 ==> Numeral(n)[0] != '0') && (n < 10 ==> |Numeral(n)| == 1)
  {
    var s := Numeral(n);
    if n < 10 {
      assert s[..0] == [];
    } else {
      NumeralValue(n / 10);
      assert s[..|s| - 1] == Numeral(n / 10);
    }
  }

  predicate IsAscii(s: string) { forall i :: 0 <= i < |s| ==> s[i] as int < 128 }

  /** A text as its bytes, and back. */
  function Ascii(s: string): (b: Bytes)
    requires IsAscii(s)
    ensures |b| == |s| && forall i :: 0 <= i < |s| ==> b[i] == s[i] as int
  {
    seq(|s|, i requires 0 <= i < |s| => s[i] as int)
  }

  function Chars(b: Bytes): (s: string)
    ensures |s| == |b| && forall i :: 0 <= i < |b| ==> s[i] as int == b[i]
  {
    seq(|b|, i requires 0 <= i < |b| => b[i] as char)
  }

  lemma {:induction false} CharsAscii(s: string)
    requires IsAscii(s)
    ensures Chars(Ascii(s)) == s
  {
  }

  function Split(s: string, sep: char): (parts: seq<string>)
    ensures |parts| >= 1
    decreases |s|
  {
    if sep !in s then [s]
    else
      var i := IndexOf(s, sep);
      [s[..i]] + Split(s[i + 1..], sep)
  }

  function IndexOf(s: string, sep: char): (i: nat)
    requires sep in s
    ensures i < |s| && s[i] == sep && sep !in s[..i]
  {
    if s[0] == sep then 0
    else
      assert s[1..][..IndexOf(s[1..], sep)] == s[1..IndexOf(s[1..], sep) + 1];
      1 + IndexOf(s[1..], sep)
  }

  lemma {:induction false} SplitOnce(p: string, sep: char)
    requires sep in p
    ensures var i := IndexOf(p, sep);
            p == p[..i] + [sep] + p[i + 1..] && Split(p, sep) == [p[..i]] + Split(p[i + 1..], sep)
  {
  }

  lemma {:induction false} FirstIndex(s: string, sep: char, k: nat)
    requires k < |s| && s[k] == sep && sep !in s[..k]
    ensures sep in s && IndexOf(s, sep) == k
  {
    if k == 0 {
    } else {
      assert s[0] == s[..k][0] && s[1..][..k - 1] == s[..k][1..];
      FirstIndex(s[1..], sep, k - 1);
    }
  }

  lemma {:induction false} SplitFirst(p: string, h: string, sep: char)
    requires sep !in p
    ensures Split(p + [sep] + h, sep) == [p] + Split(h, sep)
  {
    var s := p + [sep] + h;
    assert s[..|p|] == p && s[|p| + 1..] == h;
    FirstIndex(s, sep, |p|);
  }

  lemma {:induction false} Reassociate<T>(a: seq<T>, b: seq<T>, c: seq<T>, d: seq<T>)
    ensures a + b + c + d == a + b + (c + d) && a + b + c == a + (b + c)
  {
  }

  lemma {:induction false} SplitTwice(a: string, q: string, h: string, sep: char)
    requires sep !in a && Split(q + [sep] + h, sep) == Split(q, sep) + Split(h, sep)
    ensures Split(a + [sep] + q + [sep] + h, sep) == [a] + Split(q, sep) + Split(h, sep)
  {
    hide Split;
    SplitFirst(a, q + [sep] + h, sep);
    Reassociate(a + [sep], q, [sep], h);
    Reassociate(a + [sep], q, [sep] + h, []);
    Reassociate(q, [sep], h, []);
    Reassociate([a], Split(q, sep), Split(h, sep), []);
  }

  /** Text put in front of a separator is split on its own. */
  lemma {:induction false} SplitPrepend(p: string, h: string, sep: char)
    ensures Split(p + [sep] + h, sep) == Split(p, sep) + Split(h, sep)
    decreases |p|
  {
    if sep !in p {
      SplitFirst(p, h, sep);
    } else {
      var i := IndexOf(p, sep);
      SplitOnce(p, sep);
      SplitPrepend(p[i + 1..], h, sep);
      SplitTwice(p[..i], p[i + 1..], h, sep);
    }
  }
}
