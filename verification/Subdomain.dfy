/**
 Public names: building a tunnel's public URL, recovering the subdomain from a Host header
 or a server name, and the characters a subdomain may hold.
 */
module Subdomain {
  import opened Basics

  const DOT: byte := 0x2E
  const COLON: byte := 0x3A

  predicate LabelByte(c: byte) {
    || 0x61 <= c <= 0x7A
    || 0x41 <= c <= 0x5A
    || 0x30 <= c <= 0x39
    || c == 0x2D
  }

  /** The empty name is valid: it asks the server to choose one. */
  ghost predicate ValidSubdomain(s: Bytes) {
    |s| <= MAX_SUBDOMAIN_LEN && forall i :: 0 <= i < |s| ==> LabelByte(s[i])
  }

  const LOWER := "abcdefghijklmnopqrstuvwxyz"
  const UPPER := "ABCDEFGHIJKLMNOPQRSTUVWXYZ"
  const DIGITS := "0123456789"

  lemma {:induction false} Alphabets(c: byte)
    ensures 0x61 <= c <= 0x7A <==> c as char in LOWER
    ensures 0x41 <= c <= 0x5A <==> c as char in UPPER
    ensures 0x30 <= c <= 0x39 <==> c as char in DIGITS
  {
    assert forall i :: 0 <= i < 26 ==> LOWER[i] as int == 0x61 + i;
    assert forall i :: 0 <= i < 26 ==> UPPER[i] as int == 0x41 + i;
    assert forall i :: 0 <= i < 10 ==> DIGITS[i] as int == 0x30 + i;
    assert 0x61 <= c <= 0x7A ==> LOWER[c - 0x61] as int == c;
    assert 0x41 <= c <= 0x5A ==> UPPER[c - 0x41] as int == c;
    assert 0x30 <= c <= 0x39 ==> DIGITS[c - 0x30] as int == c;
  }

  /** The names a tunnel may ask for: letters of either case, digits and hyphens, at most 63. */
  lemma {:induction false} ValidIff(s: Bytes)
    ensures ValidSubdomain(s)
       <==> |s| <= 63 && forall i :: 0 <= i < |s| ==> s[i] as char in LOWER + UPPER + DIGITS + "-"
  {
    forall i | 0 <= i < |s|
      ensures LabelByte(s[i]) <==> s[i] as char in LOWER + UPPER + DIGITS + "-"
    {
      Alphabets(s[i]);
    }
  }

  method CheckSubdomain(s: Bytes) returns (ok: bool)
    ensures ok == ValidSubdomain(s)
  {
    if s == [] {
      return true;
    }
    if |s| > MAX_SUBDOMAIN_LEN {
      return false;
    }
    for i := 0 to |s|
      invariant forall j :: 0 <= j < i ==> LabelByte(s[j])
    {
      if !LabelByte(s[i]) {
        return false;
      }
    }
    return true;
  }

  /** Everything before the first colon. */
  function StripPort(host: Bytes): (h: Bytes)
    ensures h <= host && COLON !in h
    ensures |h| < |host| ==> host[|h|] == COLON
  {
    if host == [] || host[0] == COLON then [] else [host[0]] + StripPort(host[1..])
  }

  lemma {:induction false} StripPortAt(h: Bytes, t: Bytes)
    requires COLON !in h && (t == [] || t[0] == COLON)
    ensures StripPort(h + t) == h
  {
    var r := StripPort(h + t);
    assert forall i :: 0 <= i < |h| ==> (h + t)[i] == h[i] && h[i] in h;
    assert |r| >= |h|;
    assert t != [] ==> (h + t)[|h|] == t[0];
    assert forall i :: 0 <= i < |r| ==> r[i] in r;
  }

  predicate HasSuffix(s: Bytes, suffix: Bytes) {
    |suffix| <= |s| && s[|s| - |suffix|..] == suffix
  }

  /** The label in front of the base domain, both without a port. */
  ghost function LabelOf(h: Bytes, base: Bytes): Bytes {
    var suffix := [DOT] + base;
    if h == base || !HasSuffix(h, suffix) then [] else
    var prefix := h[..|h| - |suffix|];
    if prefix == [] || DOT in prefix || !ValidSubdomain(prefix) then [] else prefix
  }

  lemma {:induction false} LabelOfIff(h: Bytes, base: Bytes, s: Bytes)
    requires s != []
    ensures LabelOf(h, base) == s <==> ValidSubdomain(s) && h == s + [DOT] + base
  {
    var suffix := [DOT] + base;
    if LabelOf(h, base) == s {
      assert h == h[..|h| - |suffix|] + h[|h| - |suffix|..];
    }
    if ValidSubdomain(s) && h == s + [DOT] + base {
      assert h == s + suffix;
      assert h[..|h| - |suffix|] == s && h[|h| - |suffix|..] == suffix;
      assert DOT !in s;
    }
  }

  /** extractSubdomain; the empty result means "no tunnel name here". */
  ghost function ExtractSubdomain(host: Bytes, baseDomain: Bytes): Bytes {
    LabelOf(StripPort(host), StripPort(baseDomain))
  }

  function PublicURL(subdomain: Bytes, baseDomain: Bytes): Bytes {
    subdomain + [DOT] + baseDomain
  }

  /** Exactly which hosts name a subdomain: those that are, without their port, the
      subdomain, a dot and the base domain without its port. */
  lemma {:induction false} ExtractIff(host: Bytes, baseDomain: Bytes, s: Bytes)
    requires s != []
    ensures ExtractSubdomain(host, baseDomain) == s
       <==> ValidSubdomain(s) && StripPort(host) == s + [DOT] + StripPort(baseDomain)
  {
    LabelOfIff(StripPort(host), StripPort(baseDomain), s);
  }

  /** A tunnel's own URL leads back to its subdomain: as registered, and with any port a
      viewer's browser adds, whether or not the base domain is configured with a port. */
  lemma {:induction false} OwnURL(subdomain: Bytes, baseDomain: Bytes, port: Bytes)
    requires subdomain != [] && ValidSubdomain(subdomain)
    ensures ExtractSubdomain(PublicURL(subdomain, baseDomain), baseDomain) == subdomain
    ensures ExtractSubdomain(PublicURL(subdomain, StripPort(baseDomain)), baseDomain) == subdomain
    ensures ExtractSubdomain(PublicURL(subdomain, StripPort(baseDomain)) + [COLON] + port, baseDomain) == subdomain
  {
    var base := StripPort(baseDomain);
    var h := subdomain + [DOT] + base;
    assert COLON !in h;
    var t := baseDomain[|base|..];
    assert PublicURL(subdomain, baseDomain) == h + t;
    StripPortAt(h, t);
    assert h + [] == h;
    StripPortAt(h, []);
    assert h + [COLON] + port == h + ([COLON] + port);
    StripPortAt(h, [COLON] + port);
    ExtractIff(PublicURL(subdomain, baseDomain), baseDomain, subdomain);
    ExtractIff(h, baseDomain, subdomain);
    ExtractIff(h + [COLON] + port, baseDomain, subdomain);
  }

  /** Two subdomains under one base domain never share a public URL. */
  lemma {:induction false} URLsDiffer(s1: Bytes, s2: Bytes, baseDomain: Bytes)
    requires PublicURL(s1, baseDomain) == PublicURL(s2, baseDomain)
    ensures s1 == s2
  {
    var u := PublicURL(s1, baseDomain);
    assert |s1| == |s2|;
    assert u[..|s1|] == s1 && u[..|s2|] == s2;
  }
}
