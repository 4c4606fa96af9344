/**
 The 21-byte frame header and the small payloads: register, register reply, TCP
 register, and the two handshake messages.
 */
module FrameCodec {
  import opened Basics
  import opened BigEndian
  import opened HttpCodec

  const HEADER_SIZE := 21
  const MAX_FRAME_SIZE := MAX_BODY_SIZE + 0x20_0000
  const MAX_VERSION_LEN := 255

  type u64 = x: int | 0 <= x < 0x1_0000_0000_0000_0000

  datatype Frame = Frame(kind: byte, tunnelID: u64, requestID: u64, payload: Bytes)

  function FrameBytes(f: Frame): Bytes {
    [f.kind] + (Put(f.tunnelID, 8) + (Put(f.requestID, 8) + (Put(|f.payload|, 4) + f.payload)))
  }

  /** PutUint64 and friends: write the big-endian bytes of n at `at`, in place. */
  method PutAt(buf: array<byte>, at: nat, n: nat, k: nat)
    requires at + k <= buf.Length
    modifies buf
    ensures buf[at..at + k] == Put(n, k)
    ensures buf[..at] == old(buf[..at]) && buf[at + k..] == old(buf[at + k..])
  {
    var bytes := Put(n, k);
    for i := 0 to k
      invariant buf[at..at + i] == bytes[..i]
      invariant buf[..at] == old(buf[..at]) && buf[at + i..] == old(buf[at + i..])
    {
      buf[at + i] := bytes[i];
      assert buf[at..at + i + 1] == buf[at..at + i] + [bytes[i]];
    }
  }

  method EncodeFrame(f: Frame) returns (buf: array<byte>)
    ensures fresh(buf) && buf[..] == FrameBytes(f)
  {
    hide Put;
    buf := new byte[HEADER_SIZE + |f.payload|](_ => 0);
    buf[0] := f.kind;
    PutAt(buf, 1, f.tunnelID, 8);
    assert buf[0] == buf[..1][0];
    PutAt(buf, 9, f.requestID, 8);
    assert buf[..9] == [f.kind] + Put(f.tunnelID, 8);
    PutAt(buf, 17, |f.payload|, 4);
    assert buf[..17] == [f.kind] + Put(f.tunnelID, 8) + Put(f.requestID, 8);
    label header:
    for i := 0 to |f.payload|
      invariant buf[..HEADER_SIZE] == old@header(buf[..HEADER_SIZE])
      invariant buf[HEADER_SIZE..HEADER_SIZE + i] == f.payload[..i]
    {
      buf[HEADER_SIZE + i] := f.payload[i];
    }
    assert buf[..] == buf[..HEADER_SIZE] + buf[HEADER_SIZE..];
    assert buf[..HEADER_SIZE] == [f.kind] + Put(f.tunnelID, 8) + Put(f.requestID, 8) + Put(|f.payload|, 4);
  }

  lemma {:induction false} FieldBounds(s: Bytes)
    requires |s| == 8
    ensures Get(s) < 0x1_0000_0000_0000_0000
  {
    GetBound(s);
    Widths();
  }

  /** DecodeFrame: bytes after the announced payload are ignored. */
  function DecodeFrame(data: Bytes): (r: Option<Frame>)
    ensures r.Some? ==> |r.value.payload| <= MAX_FRAME_SIZE && HEADER_SIZE + |r.value.payload| <= |data|
  {
    if |data| < HEADER_SIZE then None else
    var n := Get(data[17..21]);
    if n > MAX_FRAME_SIZE || |data| < HEADER_SIZE + n then None else
    FieldBounds(data[1..9]); FieldBounds(data[9..17]);
    Some(Frame(data[0], Get(data[1..9]), Get(data[9..17]), data[21..21 + n]))
  }

  /** A frame survives the link exactly when its payload is within the frame limit. */
  lemma {:induction false} FrameRoundTrip(f: Frame, t: Bytes)
    ensures DecodeFrame(FrameBytes(f) + t) == Some(f) <==> |f.payload| <= MAX_FRAME_SIZE
  {
    if |f.payload| <= MAX_FRAME_SIZE {
      var s := FrameBytes(f) + t;
      Widths();
      GetPut(f.tunnelID, 8);
      GetPut(f.requestID, 8);
      GetPut(|f.payload|, 4);
      assert s[1..9] == Put(f.tunnelID, 8);
      assert s[9..17] == Put(f.requestID, 8);
      assert s[17..21] == Put(|f.payload|, 4);
      assert s[21..21 + |f.payload|] == f.payload;
    }
  }

  /** Every proper prefix of an encoded frame is refused. */
  lemma {:induction false} FrameSelfDelimiting(f: Frame, p: Bytes)
    requires |f.payload| <= MAX_FRAME_SIZE && p < FrameBytes(f)
    ensures DecodeFrame(p).None?
  {
    if |p| >= HEADER_SIZE {
      Widths();
      GetPut(|f.payload|, 4);
      assert p[17..21] == FrameBytes(f)[17..21] == Put(|f.payload|, 4);
    }
  }

  // ---- Register ---------------------------------------------------------

  /** EncodeRegister refuses a subdomain of more than 63 bytes. */
  function EncodeRegister(port: u16, subdomain: Bytes): Option<Bytes> {
    if |subdomain| > MAX_SUBDOMAIN_LEN then None
    else if subdomain == [] then Some(Put(port, 2))
    else Some(Put(port, 2) + [|subdomain|] + subdomain)
  }

  function DecodeRegister(payload: Bytes): Option<(u16, Bytes)> {
    if |payload| < 2 then None else
    StatusBound(payload);
    var port: u16 := Get(payload[..2]);
    if |payload| < 3 then Some((port, [])) else
    var n: int := payload[2];
    if n > MAX_SUBDOMAIN_LEN || |payload| < 3 + n then None
    else Some((port, payload[3..3 + n]))
  }

  lemma {:induction false} RegisterRoundTrip(port: u16, subdomain: Bytes)
    ensures EncodeRegister(port, subdomain).Some? <==> |subdomain| <= MAX_SUBDOMAIN_LEN
    ensures EncodeRegister(port, subdomain).Some? ==>
              DecodeRegister(EncodeRegister(port, subdomain).value) == Some((port, subdomain))
  {
    Widths();
    GetPut(port, 2);
    if |subdomain| <= MAX_SUBDOMAIN_LEN {
      var s := EncodeRegister(port, subdomain).value;
      assert s[..2] == Put(port, 2);
      if subdomain != [] {
        assert s[3..3 + |subdomain|] == subdomain;
      }
    }
  }

  /** Unlike the HTTP payloads, a register payload is not self-delimiting: exactly one
      proper prefix is accepted, the bare port, and it asks for a random subdomain. */
  lemma {:induction false} RegisterPrefixes(port: u16, subdomain: Bytes, p: Bytes)
    requires 0 < |subdomain| <= MAX_SUBDOMAIN_LEN
    requires p < EncodeRegister(port, subdomain).value
    ensures DecodeRegister(p).Some? <==> |p| == 2
    ensures |p| == 2 ==> DecodeRegister(p) == Some((port, []))
  {
    Widths();
    GetPut(port, 2);
    if |p| >= 2 {
      assert p[..2] == Put(port, 2);
    }
  }

  function EncodeRegisterOK(url: Bytes, tunnelID: u64): Option<Bytes> {
    if |url| > 255 then None else Some([|url|] + url + Put(tunnelID, 8))
  }

  function DecodeRegisterOK(payload: Bytes): Option<(Bytes, u64)> {
    if |payload| < 1 then None else
    var n: int := payload[0];
    if |payload| < 1 + n + 8 then None else
    FieldBounds(payload[1 + n..1 + n + 8]);
    Some((payload[1..1 + n], Get(payload[1 + n..1 + n + 8])))
  }

  lemma {:induction false} RegisterOKRoundTrip(url: Bytes, tunnelID: u64, t: Bytes)
    ensures EncodeRegisterOK(url, tunnelID).Some? <==> |url| <= 255
    ensures |url| <= 255 ==>
              DecodeRegisterOK(EncodeRegisterOK(url, tunnelID).value + t) == Some((url, tunnelID))
  {
    if |url| <= 255 {
      var s := EncodeRegisterOK(url, tunnelID).value + t;
      Widths();
      GetPut(tunnelID, 8);
      assert s[1..1 + |url|] == url;
      assert s[1 + |url|..1 + |url| + 8] == Put(tunnelID, 8);
    }
  }

  lemma {:induction false} RegisterOKSelfDelimiting(url: Bytes, tunnelID: u64, p: Bytes)
    requires |url| <= 255 && p < EncodeRegisterOK(url, tunnelID).value
    ensures DecodeRegisterOK(p).None?
  {
    if p != [] {
      assert p[0] == EncodeRegisterOK(url, tunnelID).value[0] == |url|;
    }
  }

  function EncodeRegisterTCP(localPort: u16, remotePort: u16): Bytes {
    Put(localPort, 2) + Put(remotePort, 2)
  }

  function DecodeRegisterTCP(payload: Bytes): Option<(u16, u16)> {
    if |payload| < 4 then None else
    StatusBound(payload); StatusBound(payload[2..]);
    Some((Get(payload[..2]), Get(payload[2..][..2])))
  }

  lemma {:induction false} RegisterTCPRoundTrip(localPort: u16, remotePort: u16, t: Bytes)
    ensures DecodeRegisterTCP(EncodeRegisterTCP(localPort, remotePort) + t) == Some((localPort, remotePort))
  {
    var s := EncodeRegisterTCP(localPort, remotePort) + t;
    Widths();
    GetPut(localPort, 2);
    GetPut(remotePort, 2);
    assert s[..2] == Put(localPort, 2) && s[2..][..2] == Put(remotePort, 2);
  }

  // ---- Handshake --------------------------------------------------------

  function EncodeAuth(token: Bytes, version: Bytes): Option<Bytes> {
    if |version| > MAX_VERSION_LEN || !Fits(token) then None
    else Some(StringBytes(token) + StringBytes(version))
  }

  /** The version is optional: fewer than two bytes after the token mean an old client. */
  function DecodeAuth(payload: Bytes): Option<(Bytes, Bytes)> {
    match ParseString(payload)
    case Bad => None
    case Got(token, r) =>
      if |r| < 2 then Some((token, [])) else
      match ParseString(r)
      case Bad => None
      case Got(version, _) => Some((token, version))
  }

  lemma {:induction false} AuthRoundTrip(token: Bytes, version: Bytes, t: Bytes)
    ensures EncodeAuth(token, version).Some? <==> |version| <= MAX_VERSION_LEN && Fits(token)
    ensures EncodeAuth(token, version).Some? ==>
              DecodeAuth(EncodeAuth(token, version).value + t) == Some((token, version))
  {
    if EncodeAuth(token, version).Some? {
      var s := EncodeAuth(token, version).value + t;
      assert s == StringBytes(token) + (StringBytes(version) + t);
      StringTrip(token, StringBytes(version) + t);
      StringTrip(version, t);
    }
  }

  /** Which proper prefixes of an auth payload are accepted: those that hold the token and
      at most one byte of the version length, and they are read as versionless. */
  lemma {:induction false} AuthPrefixes(token: Bytes, version: Bytes, p: Bytes)
    requires |version| <= MAX_VERSION_LEN && Fits(token)
    requires p < EncodeAuth(token, version).value
    ensures DecodeAuth(p).Some? <==> 2 + |token| <= |p| < 4 + |token|
    ensures DecodeAuth(p).Some? ==> DecodeAuth(p) == Some((token, []))
  {
    var s := EncodeAuth(token, version).value;
    Widths();
    GetPut(|token|, 2);
    if |p| >= 2 + |token| {
      var q := p[2 + |token|..];
      assert p == StringBytes(token) + q by {
        assert p == s[..|p|];
      }
      StringTrip(token, q);
      if |q| >= 2 {
        GetPut(|version|, 2);
        assert q == s[2 + |token|..|p|];
        assert q[..2] == Put(|version|, 2);
      }
    } else if |p| >= 2 {
      assert p[..2] == s[..2] == Put(|token|, 2);
    }
  }
}
