/**
 Reading the server name out of a TLS ClientHello record without consuming it.
 `Sni` is what the parser computes; it is proved against two serializers: the one of
 section 4.1.2 of RFC 8446 with section 3 of RFC 6066, and the exact, more lenient
 language the parser accepts.
 */
module ClientHelloParser {
  import opened Basics
  import opened BigEndian

  function U16(b: Bytes): (n: nat)
    requires |b| >= 2
    ensures n < 0x1_0000
  {
    b[0] as int * 256 + b[1]
  }

  lemma {:induction false} U16Put(n: nat, t: Bytes)
    requires n < 0x1_0000
    ensures U16(Put(n, 2) + t) == n
  {
    assert Put(n / 256, 1) == Put(n / 256 / 256, 0) + [n / 256 % 256];
  }

  lemma {:induction false} PutU16(b: Bytes)
    requires |b| >= 2
    ensures Put(U16(b), 2) == b[..2]
  {
    var n := U16(b);
    assert n / 256 == b[0] && n % 256 == b[1];
    assert Put(n / 256, 1) == Put(n / 256 / 256, 0) + [n / 256 % 256];
    assert Put(n, 2) == [b[0], b[1]];
  }

  // ---- The parser -------------------------------------------------------

  /** Bytes of the record that starts `data`: the 5-byte record header and its fragment. */
  function RecordLen(data: Bytes): nat
    requires |data| >= 5
  {
    5 + U16(data[3..5])
  }

  function Skip8(b: Bytes): Option<Bytes> {
    if |b| < 1 || |b| < 1 + b[0] as int then None else Some(b[1 + b[0] as int..])
  }

  function Skip16(b: Bytes): Option<Bytes> {
    if |b| < 2 || |b| - 2 < U16(b) then None else Some(b[2 + U16(b)..])
  }

  function Take16(b: Bytes): Option<Bytes> {
    if |b| < 2 || |b| - 2 < U16(b) then None else Some(b[2..2 + U16(b)])
  }

  function FindName(b: Bytes): Option<Bytes> {
    if |b| < 3 then None else
    var n := U16(b[1..]);
    if |b| - 3 < n then None
    else if b[0] == 0 then Some(b[3..3 + n])
    else FindName(b[3 + n..])
  }

  /** The list length is checked against the extension but does not bound the scan. */
  function ServerName(ext: Bytes): Option<Bytes> {
    if |ext| < 2 || |ext| - 2 < U16(ext) then None else FindName(ext[2..])
  }

  function FindExtension(b: Bytes): Option<Bytes> {
    if |b| < 4 then None else
    var n := U16(b[2..]);
    if |b| - 4 < n then None
    else if U16(b) != 0 then FindExtension(b[4 + n..])
    else ServerName(b[4..4 + n])
  }

  function HelloName(b: Bytes): Option<Bytes> {
    if |b| < 34 then None else
    match Skip8(b[34..])
    case None => None
    case Some(b1) =>
      match Skip16(b1)
      case None => None
      case Some(b2) =>
        match Skip8(b2)
        case None => None
        case Some(b3) =>
          match Take16(b3)
          case None => None
          case Some(exts) => FindExtension(exts)
  }

  function HandshakeName(hs: Bytes): Option<Bytes> {
    if |hs| < 4 || hs[0] != 1 then None else HelloName(hs[4..])
  }

  function Sni(data: Bytes): Option<Bytes> {
    if |data| < 5 || data[0] != 0x16 || |data| < RecordLen(data) then None
    else HandshakeName(data[5..RecordLen(data)])
  }

  /** parseServerName: the slice is cut shorter entry by entry. */
  method ParseServerName(extension: Bytes) returns (r: Option<Bytes>)
    ensures r == ServerName(extension)
  {
    var ext := extension;
    if |ext| < 2 {
      return None;
    }
    var listLen := U16(ext);
    ext := ext[2..];
    if |ext| < listLen {
      return None;
    }
    while |ext| >= 3
      invariant FindName(ext) == ServerName(extension)
    {
      var nameType := ext[0];
      var nameLen := U16(ext[1..]);
      ghost var before := ext;
      ext := ext[3..];
      if |ext| < nameLen {
        return None;
      }
      assert before[3..3 + nameLen] == ext[..nameLen];
      assert before[3 + nameLen..] == ext[nameLen..];
      if nameType == 0 {
        return Some(ext[..nameLen]);
      }
      ext := ext[nameLen..];
    }
    return None;
  }

  /** The extension loop of extractSNI. */
  method ScanExtensions(block: Bytes) returns (r: Option<Bytes>)
    ensures r == FindExtension(block)
  {
    var b := block;
    while |b| >= 4
      invariant FindExtension(b) == FindExtension(block)
    {
      var extType := U16(b);
      var extLen := U16(b[2..]);
      ghost var before := b;
      b := b[4..];
      if |b| < extLen {
        return None;
      }
      assert before[4..4 + extLen] == b[..extLen];
      assert before[4 + extLen..] == b[extLen..];
      if extType != 0 {
        b := b[extLen..];
        continue;
      }
      r := ParseServerName(b[..extLen]);
      return;
    }
    return None;
  }

  /** The part of extractSNI after the handshake header. */
  method ScanHello(hello: Bytes) returns (r: Option<Bytes>)
    ensures r == HelloName(hello)
  {
    hide U16, FindExtension;
    var b := hello;
    if |b| < 34 {
      return None;
    }
    b := b[34..];

    if |b| < 1 || |b| < 1 + b[0] as int {
      return None;
    }
    b := b[1 + b[0] as int..];

    if |b| < 2 {
      return None;
    }
    var n := U16(b);
    ghost var ciphers := b;
    b := b[2..];
    if |b| < n {
      return None;
    }
    b := b[n..];
    assert b == ciphers[2 + n..];

    if |b| < 1 || |b| < 1 + b[0] as int {
      return None;
    }
    b := b[1 + b[0] as int..];

    if |b| < 2 {
      return None;
    }
    var extTotal := U16(b);
    ghost var tail := b;
    b := b[2..];
    if |b| < extTotal {
      return None;
    }
    b := b[..extTotal];
    assert b == tail[2..2 + extTotal];
    r := ScanExtensions(b);
  }

  /** extractSNI: every re-slice is within bounds whatever the bytes are. */
  method ExtractSNI(data: Bytes) returns (r: Option<Bytes>)
    ensures r == Sni(data)
  {
    if |data| < 5 || data[0] != 0x16 {
      return None;
    }
    var recLen := U16(data[3..5]);
    var hs := data[5..];
    if |hs| < recLen {
      return None;
    }
    hs := hs[..recLen];
    assert hs == data[5..RecordLen(data)];
    if |hs| < 4 || hs[0] != 0x01 {
      return None;
    }
    r := ScanHello(hs[4..]);
  }

  // ---- The serializer of RFC 8446 and RFC 6066 --------------------------

  datatype HostName = HostName(kind: byte, name: Bytes)
  datatype Extension = ServerNames(names: seq<HostName>) | Other(kind: nat, data: Bytes)
  datatype ClientHello = ClientHello(
    recordVersion: Bytes, legacyVersion: Bytes, random: Bytes, sessionID: Bytes,
    cipherSuites: Bytes, compression: Bytes, extensions: seq<Extension>)

  function Vec8(x: Bytes): Bytes
    requires |x| < 256
  {
    [|x|] + x
  }

  function Vec16(x: Bytes): Bytes { Put(|x|, 2) + x }

  function NameBytes(n: HostName): Bytes { [n.kind] + Vec16(n.name) }

  function NamesBytes(ns: seq<HostName>): Bytes {
    if ns == [] then [] else NameBytes(ns[0]) + NamesBytes(ns[1..])
  }

  function ExtensionKind(e: Extension): nat { if e.ServerNames? then 0 else e.kind }

  function ExtensionData(e: Extension): Bytes {
    if e.ServerNames? then Vec16(NamesBytes(e.names)) else e.data
  }

  function ExtensionBytes(e: Extension): Bytes {
    Put(ExtensionKind(e), 2) + Vec16(ExtensionData(e))
  }

  function ExtensionsBytes(es: seq<Extension>): Bytes {
    if es == [] then [] else ExtensionBytes(es[0]) + ExtensionsBytes(es[1..])
  }

  ghost predicate NameFits(n: HostName) { |n.name| < 0x1_0000 }

  ghost predicate ExtensionFits(e: Extension) {
    && |ExtensionData(e)| < 0x1_0000
    && match e
       case ServerNames(ns) => |NamesBytes(ns)| < 0x1_0000 && forall n :: n in ns ==> NameFits(n)
       case Other(k, _) => 0 < k < 0x1_0000
  }

  function HelloBytes(h: ClientHello): Bytes
    requires |h.sessionID| < 256 && |h.compression| < 256
  {
    h.legacyVersion + h.random
    + (Vec8(h.sessionID) + (Vec16(h.cipherSuites) + (Vec8(h.compression) + Vec16(ExtensionsBytes(h.extensions)))))
  }

  function RecordBytes(h: ClientHello): Bytes
    requires |h.sessionID| < 256 && |h.compression| < 256
  {
    [0x16] + h.recordVersion + Vec16([1] + Put(|HelloBytes(h)|, 3) + HelloBytes(h))
  }

  ghost predicate WellFormed(h: ClientHello) {
    && |h.recordVersion| == 2 && |h.legacyVersion| == 2 && |h.random| == 32
    && |h.sessionID| < 256 && |h.compression| < 256 && |h.cipherSuites| < 0x1_0000
    && (forall e :: e in h.extensions ==> ExtensionFits(e))
    && |ExtensionsBytes(h.extensions)| < 0x1_0000
    && |HelloBytes(h)| + 4 < 0x1_0000
  }

  /** The first host_name entry, if there is one. */
  ghost predicate FirstHost(ns: seq<HostName>, name: Bytes) {
    exists j :: 0 <= j < |ns| && ns[j] == HostName(0, name) && forall i :: 0 <= i < j ==> ns[i].kind != 0
  }

  /** The first server_name extension's first host_name. */
  ghost predicate Announces(es: seq<Extension>, name: Bytes) {
    exists j :: 0 <= j < |es| && es[j].ServerNames? && FirstHost(es[j].names, name)
                && forall i :: 0 <= i < j ==> es[i].Other?
  }

  lemma {:induction false} NameHead(n: HostName, t: Bytes)
    requires NameFits(n)
    ensures FindName(NameBytes(n) + t) == if n.kind == 0 then Some(n.name) else FindName(t)
  {
    var b := NameBytes(n) + t;
    assert b[1..] == Put(|n.name|, 2) + (n.name + t);
    U16Put(|n.name|, n.name + t);
    assert b[3..3 + |n.name|] == n.name && b[3 + |n.name|..] == t;
  }

  lemma {:induction false} FirstHostCons(ns: seq<HostName>, name: Bytes)
    requires ns != []
    ensures FirstHost(ns, name) <==> if ns[0].kind == 0 then ns[0].name == name else FirstHost(ns[1..], name)
  {
    var more := ns[1..];
    if FirstHost(ns, name) {
      var j :| 0 <= j < |ns| && ns[j] == HostName(0, name) && forall i :: 0 <= i < j ==> ns[i].kind != 0;
      if j != 0 {
        assert more[j - 1] == ns[j];
        assert forall i :: 0 <= i < j - 1 ==> more[i] == ns[i + 1];
      }
    }
    if ns[0].kind == 0 {
      assert ns[0] == HostName(0, ns[0].name);
    } else if FirstHost(more, name) {
      var j :| 0 <= j < |more| && more[j] == HostName(0, name) && forall i :: 0 <= i < j ==> more[i].kind != 0;
      assert ns[j + 1] == more[j];
      assert forall i :: 0 < i < j + 1 ==> ns[i] == more[i - 1];
    }
  }

  lemma {:induction false} NamesParse(ns: seq<HostName>)
    requires forall n :: n in ns ==> NameFits(n)
    ensures forall name :: FindName(NamesBytes(ns)) == Some(name) <==> FirstHost(ns, name)
  {
    if ns == [] {
    } else {
      assert ns[0] in ns && NameFits(ns[0]);
      NameHead(ns[0], NamesBytes(ns[1..]));
      NamesParse(ns[1..]);
      forall name ensures FindName(NamesBytes(ns)) == Some(name) <==> FirstHost(ns, name) {
        FirstHostCons(ns, name);
      }
    }
  }

  lemma {:induction false} ExtensionsParse(es: seq<Extension>)
    requires forall e :: e in es ==> ExtensionFits(e)
    ensures forall name :: FindExtension(ExtensionsBytes(es)) == Some(name) <==> Announces(es, name)
  {
    if es == [] {
    } else {
      var e, more := es[0], es[1..];
      assert e in es && ExtensionFits(e);
      ExtensionsParse(more);
      ExtensionHead(e, ExtensionsBytes(more));
      forall name ensures FindExtension(ExtensionsBytes(es)) == Some(name) <==> Announces(es, name) {
        AnnouncesCons(es, name);
        if e.ServerNames? {
          ServerNamesParse(e.names);
        }
      }
    }
  }

  lemma {:induction false} AnnouncesCons(es: seq<Extension>, name: Bytes)
    requires es != []
    ensures Announces(es, name) <==>
              if es[0].ServerNames? then FirstHost(es[0].names, name) else Announces(es[1..], name)
  {
    var more := es[1..];
    if es[0].Other? {
      if Announces(more, name) {
        var j :| 0 <= j < |more| && more[j].ServerNames? && FirstHost(more[j].names, name)
              && forall i :: 0 <= i < j ==> more[i].Other?;
        assert es[j + 1] == more[j];
        assert forall i :: 0 < i < j + 1 ==> es[i] == more[i - 1];
      }
      if Announces(es, name) {
        var j :| 0 <= j < |es| && es[j].ServerNames? && FirstHost(es[j].names, name)
              && forall i :: 0 <= i < j ==> es[i].Other?;
        assert more[j - 1] == es[j];
        assert forall i :: 0 <= i < j - 1 ==> more[i] == es[i + 1];
      }
    } else if Announces(es, name) {
      var j :| 0 <= j < |es| && es[j].ServerNames? && FirstHost(es[j].names, name)
            && forall i :: 0 <= i < j ==> es[i].Other?;
      assert j == 0;
    }
  }

  lemma {:induction false} ExtensionHeadRaw(kind: nat, d: Bytes, t: Bytes)
    requires kind < 0x1_0000 && |d| < 0x1_0000
    ensures FindExtension(Put(kind, 2) + Vec16(d) + t) == if kind == 0 then ServerName(d) else FindExtension(t)
  {
    var b := Put(kind, 2) + Vec16(d) + t;
    assert b == Put(kind, 2) + (Put(|d|, 2) + (d + t));
    U16Put(kind, Put(|d|, 2) + (d + t));
    assert b[2..] == Put(|d|, 2) + (d + t);
    U16Put(|d|, d + t);
    assert b[4..4 + |d|] == d && b[4 + |d|..] == t;
  }

  lemma {:induction false} ExtensionHead(e: Extension, t: Bytes)
    requires ExtensionFits(e)
    ensures FindExtension(ExtensionBytes(e) + t)
         == if e.ServerNames? then ServerName(ExtensionData(e)) else FindExtension(t)
  {
    ExtensionHeadRaw(ExtensionKind(e), ExtensionData(e), t);
  }

  lemma {:induction false} ServerNamesParse(ns: seq<HostName>)
    requires |NamesBytes(ns)| < 0x1_0000 && forall n :: n in ns ==> NameFits(n)
    ensures forall name :: ServerName(Vec16(NamesBytes(ns))) == Some(name) <==> FirstHost(ns, name)
  {
    var d := NamesBytes(ns);
    U16Put(|d|, d);
    assert Vec16(d)[2..] == d;
    NamesParse(ns);
  }

  lemma {:induction false} Skip8Vec(x: Bytes, t: Bytes)
    requires |x| < 256
    ensures Skip8(Vec8(x) + t) == Some(t)
  {
    assert (Vec8(x) + t)[1 + |x|..] == t;
  }

  lemma {:induction false} Skip16Vec(x: Bytes, t: Bytes)
    requires |x| < 0x1_0000
    ensures Skip16(Vec16(x) + t) == Some(t) && Take16(Vec16(x) + t) == Some(x)
  {
    assert Vec16(x) + t == Put(|x|, 2) + (x + t);
    U16Put(|x|, x + t);
    assert (Vec16(x) + t)[2 + |x|..] == t && (Vec16(x) + t)[2..2 + |x|] == x;
  }

  /** The body of the hello, with `pre` standing for version and random. */
  lemma {:induction false} HelloNameOf(pre: Bytes, sid: Bytes, ciphers: Bytes, comp: Bytes, exts: Bytes, t: Bytes)
    requires |pre| == 34 && |sid| < 256 && |ciphers| < 0x1_0000 && |comp| < 256 && |exts| < 0x1_0000
    ensures HelloName(HelloSpelling(pre, sid, ciphers, comp, exts, t)) == FindExtension(exts)
  {
    var b3 := Vec16(exts) + t;
    var b2 := Vec8(comp) + b3;
    var b1 := Vec16(ciphers) + b2;
    assert (pre + (Vec8(sid) + b1))[34..] == Vec8(sid) + b1;
    Skip8Vec(sid, b1);
    Skip16Vec(ciphers, b2);
    Skip8Vec(comp, b3);
    Skip16Vec(exts, t);
  }

  lemma {:induction false} RecordName(version: Bytes, hs: Bytes, t: Bytes)
    requires |version| == 2 && |hs| < 0x1_0000
    ensures RecordLen([0x16] + version + Vec16(hs) + t) == 5 + |hs|
    ensures Sni([0x16] + version + Vec16(hs) + t) == HandshakeName(hs)
  {
    var data := [0x16] + version + Vec16(hs) + t;
    assert data[3..5] == Put(|hs|, 2) + [];
    U16Put(|hs|, []);
    assert data[5..5 + |hs|] == hs;
  }

  /** For every well-formed hello, followed by anything, the parser returns exactly the
      first host_name of the first server_name extension, and nothing if there is none. */
  lemma {:induction false} WellFormedHello(h: ClientHello, t: Bytes, name: Bytes)
    requires WellFormed(h)
    ensures RecordLen(RecordBytes(h) + t) == |RecordBytes(h)|
    ensures Sni(RecordBytes(h) + t) == Some(name) <==> Announces(h.extensions, name)
  {
    var body := HelloBytes(h);
    var hs := [1] + Put(|body|, 3) + body;
    RecordName(h.recordVersion, hs, t);
    assert hs[4..] == body;
    var exts := ExtensionsBytes(h.extensions);
    assert Vec16(exts) + [] == Vec16(exts);
    HelloNameOf(h.legacyVersion + h.random, h.sessionID, h.cipherSuites, h.compression, exts, []);
    ExtensionsParse(h.extensions);
  }

  // ---- The language the parser accepts ----------------------------------

  /** Everything the parser does not look at is free: the handshake length, the bytes after
      the matched name in its extension, after that extension, and after the block. */
  datatype Accepted = Accepted(
    recordVersion: Bytes, handshakeLen: Bytes, versionRandom: Bytes,
    sessionID: Bytes, cipherSuites: Bytes, compression: Bytes,
    others: seq<Extension>, listLen: nat, otherNames: seq<HostName>, name: Bytes,
    afterName: Bytes, afterExtension: Bytes, afterBlock: Bytes)

  function NameExtension(a: Accepted): Bytes {
    Put(a.listLen, 2) + (NamesBytes(a.otherNames) + (NameBytes(HostName(0, a.name)) + a.afterName))
  }

  function Block(a: Accepted): Bytes {
    ExtensionsBytes(a.others) + (Put(0, 2) + Vec16(NameExtension(a)) + a.afterExtension)
  }

  function Handshake(a: Accepted): Bytes
    requires |a.sessionID| < 256 && |a.compression| < 256
  {
    [1] + a.handshakeLen
    + HelloSpelling(a.versionRandom, a.sessionID, a.cipherSuites, a.compression, Block(a), a.afterBlock)
  }

  function HelloSpelling(pre: Bytes, sid: Bytes, ciphers: Bytes, comp: Bytes, exts: Bytes, t: Bytes): Bytes
    requires |sid| < 256 && |comp| < 256
  {
    pre + (Vec8(sid) + (Vec16(ciphers) + (Vec8(comp) + (Vec16(exts) + t))))
  }

  ghost predicate LegalBlock(a: Accepted) {
    && (forall e :: e in a.others ==> e.Other? && ExtensionFits(e))
    && (forall n :: n in a.otherNames ==> n.kind != 0 && NameFits(n))
    && |a.name| < 0x1_0000
    && a.listLen <= |NameExtension(a)| - 2
    && |NameExtension(a)| < 0x1_0000 && |Block(a)| < 0x1_0000
  }

  ghost predicate Legal(a: Accepted) {
    && |a.recordVersion| == 2 && |a.handshakeLen| == 3 && |a.versionRandom| == 34
    && |a.sessionID| < 256 && |a.cipherSuites| < 0x1_0000 && |a.compression| < 256
    && LegalBlock(a) && |Handshake(a)| < 0x1_0000
  }

  lemma {:induction false} NamesSkip(ns: seq<HostName>, t: Bytes)
    requires forall n :: n in ns ==> n.kind != 0 && NameFits(n)
    ensures FindName(NamesBytes(ns) + t) == FindName(t)
  {
    if ns == [] {
      assert NamesBytes(ns) + t == t;
    } else {
      assert ns[0] in ns;
      NamesSkip(ns[1..], t);
      NameHead(ns[0], NamesBytes(ns[1..]) + t);
      assert NamesBytes(ns) + t == NameBytes(ns[0]) + (NamesBytes(ns[1..]) + t);
    }
  }

  lemma {:induction false} Regroup(a: Bytes, b: Bytes, c: Bytes)
    ensures a + (b + c) == a + b + c
  {
  }

  lemma {:induction false} ExtensionsSkip(es: seq<Extension>, t: Bytes)
    requires forall e :: e in es ==> e.Other? && ExtensionFits(e)
    ensures FindExtension(ExtensionsBytes(es) + t) == FindExtension(t)
  {
    if es == [] {
      assert ExtensionsBytes(es) + t == t;
    } else {
      var e, fs := es[0], es[1..];
      assert e in es;
      ExtensionsSkip(fs, t);
      ExtensionHead(e, ExtensionsBytes(fs) + t);
      assert ExtensionsBytes(es) == ExtensionBytes(e) + ExtensionsBytes(fs);
      hide FindExtension, ExtensionsBytes, ExtensionBytes;
      Regroup(ExtensionBytes(e), ExtensionsBytes(fs), t);
    }
  }

  lemma {:induction false} NameExtensionParse(a: Accepted)
    requires LegalBlock(a)
    ensures ServerName(NameExtension(a)) == Some(a.name)
  {
    var d := NameExtension(a);
    var hit := NameBytes(HostName(0, a.name)) + a.afterName;
    U16Put(a.listLen, NamesBytes(a.otherNames) + hit);
    assert d[2..] == NamesBytes(a.otherNames) + hit;
    NamesSkip(a.otherNames, hit);
    NameHead(HostName(0, a.name), a.afterName);
  }

  lemma {:induction false} BlockParse(a: Accepted)
    requires LegalBlock(a)
    ensures FindExtension(Block(a)) == Some(a.name)
  {
    var d := NameExtension(a);
    var hit := Put(0, 2) + Vec16(d) + a.afterExtension;
    ExtensionsSkip(a.others, hit);
    ExtensionHeadRaw(0, d, a.afterExtension);
    NameExtensionParse(a);
  }

  ghost predicate InLanguage(data: Bytes, name: Bytes) {
    exists a: Accepted, t: Bytes :: Spells(data, a, t, name)
  }

  ghost predicate Spells(data: Bytes, a: Accepted, t: Bytes, name: Bytes) {
    Legal(a) && a.name == name && data == [0x16] + a.recordVersion + Vec16(Handshake(a)) + t
  }

  lemma {:induction false} Complete(data: Bytes, a: Accepted, t: Bytes)
    requires Spells(data, a, t, a.name)
    ensures Sni(data) == Some(a.name)
  {
    RecordName(a.recordVersion, Handshake(a), t);
    var body := HelloSpelling(a.versionRandom, a.sessionID, a.cipherSuites, a.compression, Block(a), a.afterBlock);
    assert Handshake(a)[4..] == body;
    HelloNameOf(a.versionRandom, a.sessionID, a.cipherSuites, a.compression, Block(a), a.afterBlock);
    BlockParse(a);
  }

  lemma {:induction false} SplitName(b: Bytes)
    requires |b| >= 3 && |b| - 3 >= U16(b[1..])
    ensures b == NameBytes(HostName(b[0], b[3..3 + U16(b[1..])])) + b[3 + U16(b[1..])..]
  {
    PutU16(b[1..]);
  }

  lemma {:induction false} NamesSound(b: Bytes) returns (ns: seq<HostName>, after: Bytes)
    requires FindName(b).Some?
    ensures forall n :: n in ns ==> n.kind != 0 && NameFits(n)
    ensures |FindName(b).value| < 0x1_0000
    ensures b == NamesBytes(ns) + (NameBytes(HostName(0, FindName(b).value)) + after)
  {
    var n := U16(b[1..]);
    var x := b[3..3 + n];
    SplitName(b);
    hide U16, Put, Vec16;
    if b[0] == 0 {
      ns, after := [], b[3 + n..];
    } else {
      var ms;
      ms, after := NamesSound(b[3 + n..]);
      ns := [HostName(b[0], x)] + ms;
      assert ns[1..] == ms;
    }
  }

  lemma {:induction false} SplitExtension(b: Bytes)
    requires |b| >= 4 && |b| - 4 >= U16(b[2..])
    ensures b == Put(U16(b), 2) + Vec16(b[4..4 + U16(b[2..])]) + b[4 + U16(b[2..])..]
  {
    PutU16(b);
    PutU16(b[2..]);
  }

  /** The first extension of a block, when it is no server_name: its parts and the rest. */
  lemma {:induction false} OtherSplit(b: Bytes)
    requires |b| >= 4 && |b| - 4 >= U16(b[2..]) && U16(b) != 0
    ensures var n := U16(b[2..]); var e := Other(U16(b), b[4..4 + n]);
            ExtensionFits(e) && b == ExtensionBytes(e) + b[4 + n..] && FindExtension(b) == FindExtension(b[4 + n..])
  {
    SplitExtension(b);
    hide Put, Vec16;
  }

  lemma {:induction false} ExtensionsCons(e: Extension, es: seq<Extension>)
    ensures ExtensionsBytes([e] + es) == ExtensionBytes(e) + ExtensionsBytes(es)
  {
    assert ([e] + es)[1..] == es;
  }

  lemma {:induction false} ExtensionsSound(b: Bytes) returns (es: seq<Extension>, d: Bytes, after: Bytes)
    requires FindExtension(b).Some?
    ensures forall e :: e in es ==> e.Other? && ExtensionFits(e)
    ensures |d| < 0x1_0000 && ServerName(d) == FindExtension(b)
    ensures b == ExtensionsBytes(es) + (Put(0, 2) + Vec16(d) + after)
  {
    var n := U16(b[2..]);
    if U16(b) == 0 {
      SplitExtension(b);
      hide U16, Put, Vec16;
      es, d, after := [], b[4..4 + n], b[4 + n..];
    } else {
      OtherSplit(b);
      var e := Other(U16(b), b[4..4 + n]);
      var fs;
      fs, d, after := ExtensionsSound(b[4 + n..]);
      hide U16, Put, Vec16, FindExtension, ExtensionsBytes, ExtensionBytes, ExtensionFits;
      es := [e] + fs;
      ExtensionsCons(e, fs);
      Regroup(ExtensionBytes(e), ExtensionsBytes(fs), Put(0, 2) + Vec16(d) + after);
    }
  }

  lemma {:induction false} ServerNameSound(d: Bytes) returns (listLen: nat, ns: seq<HostName>, after: Bytes)
    requires ServerName(d).Some?
    ensures forall n :: n in ns ==> n.kind != 0 && NameFits(n)
    ensures |ServerName(d).value| < 0x1_0000 && listLen <= |d| - 2
    ensures d == Put(listLen, 2) + (NamesBytes(ns) + (NameBytes(HostName(0, ServerName(d).value)) + after))
  {
    listLen := U16(d);
    PutU16(d);
    ns, after := NamesSound(d[2..]);
  }

  lemma {:induction false} Skip8Sound(b: Bytes) returns (x: Bytes)
    requires Skip8(b).Some?
    ensures |x| < 256 && b == Vec8(x) + Skip8(b).value
  {
    x := b[1..1 + b[0] as int];
  }

  lemma {:induction false} Skip16Sound(b: Bytes) returns (x: Bytes)
    requires Skip16(b).Some?
    ensures |x| < 0x1_0000 && b == Vec16(x) + Skip16(b).value && Take16(b) == Some(x)
  {
    PutU16(b);
    x := b[2..2 + U16(b)];
  }

  lemma {:induction false} HelloSound(b: Bytes) returns (sid: Bytes, ciphers: Bytes, comp: Bytes, exts: Bytes,
                                      after: Bytes)
    requires HelloName(b).Some?
    ensures |sid| < 256 && |ciphers| < 0x1_0000 && |comp| < 256 && |exts| < 0x1_0000 && |b| >= 34
    ensures b == HelloSpelling(b[..34], sid, ciphers, comp, exts, after)
    ensures FindExtension(exts) == HelloName(b)
  {
    sid := Skip8Sound(b[34..]);
    var b1 := Skip8(b[34..]).value;
    ciphers := Skip16Sound(b1);
    var b2 := Skip16(b1).value;
    comp := Skip8Sound(b2);
    var b3 := Skip8(b2).value;
    exts := Skip16Sound(b3);
    after := Skip16(b3).value;
  }

  lemma {:induction false} BlockSound(exts: Bytes, o: Accepted) returns (a: Accepted)
    requires FindExtension(exts).Some? && |exts| < 0x1_0000
    ensures Block(a) == exts && LegalBlock(a) && FindExtension(exts) == Some(a.name)
    ensures a == o.(others := a.others, listLen := a.listLen, otherNames := a.otherNames, name := a.name,
                    afterName := a.afterName, afterExtension := a.afterExtension)
  {
    var es, d, afterExt := ExtensionsSound(exts);
    var listLen, ns, afterName := ServerNameSound(d);
    a := o.(others := es, listLen := listLen, otherNames := ns, name := ServerName(d).value,
            afterName := afterName, afterExtension := afterExt);
    assert NameExtension(a) == d;
  }

  lemma {:induction false} SplitHandshake(hs: Bytes)
    requires |hs| >= 4 && hs[0] == 1
    ensures hs == [1] + hs[1..4] + hs[4..]
  {
  }

  lemma {:induction false} HandshakeSound(hs: Bytes, version: Bytes) returns (a: Accepted)
    requires HandshakeName(hs).Some? && |version| == 2 && |hs| < 0x1_0000
    ensures Legal(a) && a.recordVersion == version && Handshake(a) == hs && HandshakeName(hs) == Some(a.name)
  {
    var b := hs[4..];
    var sid, ciphers, comp, exts, after := HelloSound(b);
    a := BlockSound(exts, Accepted(version, hs[1..4], b[..34], sid, ciphers, comp, [], 0, [], [], [], [], after));
    SplitHandshake(hs);
  }

  lemma {:induction false} SplitRecord(data: Bytes)
    requires |data| >= 5 && data[0] == 0x16 && RecordLen(data) <= |data|
    ensures data == [0x16] + data[1..3] + Vec16(data[5..RecordLen(data)]) + data[RecordLen(data)..]
  {
    PutU16(data[3..5]);
  }

  lemma {:induction false} Sound(data: Bytes) returns (a: Accepted, t: Bytes)
    requires Sni(data).Some?
    ensures Spells(data, a, t, Sni(data).value)
  {
    var n := RecordLen(data);
    t := data[n..];
    a := HandshakeSound(data[5..n], data[1..3]);
    SplitRecord(data);
  }

  /** The parser returns a name exactly when the bytes spell that name in the language. */
  lemma {:induction false} ParserIsExact(data: Bytes, name: Bytes)
    ensures Sni(data) == Some(name) <==> InLanguage(data, name)
  {
    if Sni(data) == Some(name) {
      var a, t := Sound(data);
    }
    if InLanguage(data, name) {
      var a, t :| Spells(data, a, t, name);
      Complete(data, a, t);
    }
  }

  // ---- The list length --------------------------------------------------

  /** What a parser that stopped at the announced list length would return. */
  function ServerNameBounded(ext: Bytes): Option<Bytes> {
    if |ext| < 2 || |ext| - 2 < U16(ext) then None else FindName(ext[2..2 + U16(ext)])
  }

  lemma {:induction false} FindNameMore(b: Bytes, t: Bytes)
    requires FindName(b).Some?
    ensures FindName(b + t) == FindName(b)
  {
    var n := U16(b[1..]);
    assert (b + t)[1] == b[1] && (b + t)[2] == b[2];
    assert (b + t)[3..3 + n] == b[3..3 + n] && (b + t)[3 + n..] == b[3 + n..] + t;
    if b[0] == 0 {
    } else {
      FindNameMore(b[3 + n..], t);
    }
  }

  /** Ignoring the list length never changes a name the list holds, and it changes nothing
      when the list fills the extension, as RFC 6066 requires. */
  lemma {:induction false} ListLengthIgnored(ext: Bytes)
    ensures ServerNameBounded(ext).Some? ==> ServerName(ext) == ServerNameBounded(ext)
    ensures |ext| >= 2 && U16(ext) == |ext| - 2 ==> ServerName(ext) == ServerNameBounded(ext)
  {
    if |ext| >= 2 && U16(ext) <= |ext| - 2 {
      var n := U16(ext);
      assert ext[2..] == ext[2..2 + n] + ext[2 + n..];
      assert n == |ext| - 2 ==> ext[2..2 + n] == ext[2..];
      if FindName(ext[2..2 + n]).Some? {
        FindNameMore(ext[2..2 + n], ext[2 + n..]);
      }
    }
  }

  function Zeros(m: nat): Bytes { seq(m, _ => 0) }

  /** Zero bytes complete whatever entry is cut off, and then are a name. */
  lemma {:induction false} ZerosName(b: Bytes, m: nat)
    requires m >= 0x1_0000 + 6
    ensures FindName(b + Zeros(m)).Some?
  {
    var x := b + Zeros(m);
    var n := U16(x[1..]);
    if b == [] || x[0] == 0 {
    } else if |b| <= 3 + n {
      var r := x[3 + n..];
      assert r[0] == x[3 + n] == 0 && r[1] == x[4 + n] == 0 && r[2] == x[5 + n] == 0;
    } else {
      assert x[3 + n..] == b[3 + n..] + Zeros(m);
      ZerosName(b[3 + n..], m);
    }
  }

  /** What follows the list never matters if and only if the list itself holds a name. */
  lemma {:induction false} ListLengthIff(l: Bytes)
    requires |l| < 0x1_0000
    ensures (forall t :: ServerName(Put(|l|, 2) + l + t) == FindName(l)) <==> FindName(l).Some?
  {
    forall t ensures ServerName(Put(|l|, 2) + l + t) == FindName(l + t) {
      assert Put(|l|, 2) + l + t == Put(|l|, 2) + (l + t);
      U16Put(|l|, l + t);
    }
    if FindName(l).Some? {
      forall t ensures ServerName(Put(|l|, 2) + l + t) == FindName(l) {
        FindNameMore(l, t);
      }
    } else {
      ZerosName(l, 0x1_0000 + 6);
      assert ServerName(Put(|l|, 2) + l + Zeros(0x1_0000 + 6)) != FindName(l);
    }
  }

  /** A name beyond an empty list is returned. */
  lemma {:induction false} NameBeyondTheList()
    ensures var ext := [0, 0, 0, 0, 1, 0x61];
            ServerNameBounded(ext) == None && ServerName(ext) == Some([0x61])
  {
    var ext: Bytes := [0, 0, 0, 0, 1, 0x61];
    assert ext[2..] == [0, 0, 1, 0x61];
    assert ext[2..][1..] == [0, 1, 0x61];
    assert ext[2..][3..4] == [0x61];
  }

  // ---- What the peek loop relies on -------------------------------------

  /** Bytes after the record never change the answer; before the record is complete there
      is no answer. */
  lemma {:induction false} RecordDecides(p: Bytes, t: Bytes)
    ensures |p| < 5 || |p| < RecordLen(p) ==> Sni(p) == None
    ensures |p| >= 5 && |p| >= RecordLen(p) ==> RecordLen(p + t) == RecordLen(p) && Sni(p + t) == Sni(p)
  {
    if |p| >= 5 {
      assert (p + t)[3..5] == p[3..5];
      if |p| >= RecordLen(p) {
        assert (p + t)[5..RecordLen(p)] == p[5..RecordLen(p)];
      }
    }
  }
}
