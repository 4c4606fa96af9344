/**
 The wire format as its documentation draws it: fields one after the other, numbers with the most
 significant byte first. The encoders are held against the drawings, not against the decoders.
 */
module Layout {
  import opened Basics
  import opened BigEndian
  import opened HttpCodec
  import opened FrameCodec

  /** A number in so many bytes, or bytes as they are. */
  datatype Field = Num(n: nat, width: nat) | Raw(b: Bytes)

  function Written(fields: seq<Field>): Bytes {
    if fields == [] then []
    else
      var f := fields[0];
      (if f.Num? then seq(f.width, i requires 0 <= i < f.width => f.n / Pow256(f.width - 1 - i) % 256) else f.b)
      + Written(fields[1..])
  }

  lemma {:induction false} Scaled(d: nat, a: nat, b: nat)
    ensures a < b ==> d * a + d <= d * b
  {
    if a < b {
      assert d * b == d * (a + 1) + d * (b - a - 1);
    }
  }

  lemma {:induction false} DivUnique(x: nat, d: nat, q: nat)
    requires d * q <= x < d * q + d
    ensures x / d == q
  {
    var k := x / d;
    assert x == d * k + x % d;
    Scaled(d, k, q);
    Scaled(d, q, k);
  }

  lemma {:induction false} DivTwice(n: nat, p: nat)
    requires p > 0
    ensures n / 256 / p == n / (256 * p)
  {
    var q := n / 256 / p;
    assert p * q <= n / 256 < p * q + p;
    assert 256 * (p * q) <= n < 256 * (p * q + p);
    assert 256 * (p * q) == 256 * p * q && 256 * (p * q + p) == 256 * p * q + 256 * p;
    DivUnique(n, 256 * p, q);
  }

  lemma {:induction false} PutDigit(n: nat, k: nat, i: nat)
    requires i < k
    ensures Put(n, k)[i] == n / Pow256(k - 1 - i) % 256
  {
    if i < k - 1 {
      PutDigit(n / 256, k - 1, i);
      DivTwice(n, Pow256(k - 2 - i));
    }
  }

  lemma {:induction false} NumIsPut(n: nat, k: nat)
    ensures seq(k, i requires 0 <= i < k => n / Pow256(k - 1 - i) % 256) == Put(n, k)
  {
    forall i | 0 <= i < k ensures Put(n, k)[i] == n / Pow256(k - 1 - i) % 256 {
      PutDigit(n, k, i);
    }
  }

  lemma {:induction false} NumFirst(n: nat, k: nat, rest: seq<Field>)
    ensures Written([Num(n, k)] + rest) == Put(n, k) + Written(rest)
  {
    NumIsPut(n, k);
    assert ([Num(n, k)] + rest)[1..] == rest;
  }

  lemma {:induction false} RawFirst(b: Bytes, rest: seq<Field>)
    ensures Written([Raw(b)] + rest) == b + Written(rest)
  {
    assert ([Raw(b)] + rest)[1..] == rest;
  }

  lemma {:induction false} NoFields()
    ensures Written([]) == [] && forall b: Bytes :: b + [] == b
  {
  }

  /** A string with its length in front. */
  function Counted(b: Bytes, width: nat): seq<Field> { [Num(|b|, width)] + [Raw(b)] }

  lemma {:induction false} CountedFirst(b: Bytes, k: nat, rest: seq<Field>)
    ensures Written(Counted(b, k) + rest) == Put(|b|, k) + b + Written(rest)
  {
    assert Counted(b, k) + rest == [Num(|b|, k)] + ([Raw(b)] + rest);
    NumFirst(|b|, k, [Raw(b)] + rest);
    RawFirst(b, rest);
  }

  // ---- Frames and small payloads ----------------------------------------

  /** Type, tunnel ID, request ID, payload length, payload. */
  lemma {:induction false} FrameLayout(f: Frame)
    ensures FrameBytes(f) == Written([Num(f.kind, 1)] + ([Num(f.tunnelID, 8)] + ([Num(f.requestID, 8)]
                                     + Counted(f.payload, 4))))
  {
    var end := Counted(f.payload, 4);
    NumFirst(f.kind, 1, [Num(f.tunnelID, 8)] + ([Num(f.requestID, 8)] + end));
    NumFirst(f.tunnelID, 8, [Num(f.requestID, 8)] + end);
    NumFirst(f.requestID, 8, end);
    CountedFirst(f.payload, 4, []);
    NoFields();
    assert end + [] == end && Put(f.kind, 1) == [f.kind];
    hide Put, Written;
  }

  lemma {:induction false} RegisterLayout(port: u16, name: Bytes)
    ensures 0 < |name| <= 63 ==> EncodeRegister(port, name) == Some(Written([Num(port, 2)] + Counted(name, 1)))
    ensures EncodeRegister(port, []) == Some(Written([Num(port, 2)]))
  {
    OneNumber(port, 2);
    OneCounted(name, 1);
    NumFirst(port, 2, Counted(name, 1));
    assert |name| < 256 ==> Put(|name|, 1) == [|name|];
    hide Put, Written, Counted;
    assert |name| < 256 ==> Put(port, 2) + ([|name|] + name) == Put(port, 2) + [|name|] + name;
  }

  /** A register payload: port and name; the reply: address and tunnel ID; a TCP register payload:
      both ports; an authentication: token and version. */
  lemma {:induction false} PayloadLayouts(port: u16, remote: u16, name: Bytes, url: Bytes, id: u64, token: Bytes,
                                          version: Bytes)
    ensures 0 < |name| <= 63 ==> EncodeRegister(port, name) == Some(Written([Num(port, 2)] + Counted(name, 1)))
    ensures EncodeRegister(port, []) == Some(Written([Num(port, 2)]))
    ensures |url| <= 255 ==> EncodeRegisterOK(url, id) == Some(Written(Counted(url, 1) + [Num(id, 8)]))
    ensures EncodeRegisterTCP(port, remote) == Written([Num(port, 2)] + [Num(remote, 2)])
    ensures |token| <= 65535 && |version| <= 255 ==>
              EncodeAuth(token, version) == Some(Written(Counted(token, 2) + Counted(version, 2)))
  {
    RegisterLayout(port, name);
    OneNumber(id, 8);
    OneNumber(remote, 2);
    OneCounted(version, 2);
    NumFirst(port, 2, [Num(remote, 2)]);
    CountedFirst(url, 1, [Num(id, 8)]);
    CountedFirst(token, 2, Counted(version, 2));
    assert |url| < 256 ==> Put(|url|, 1) == [|url|];
    hide Put, Written, Counted, EncodeRegister;
  }

  lemma {:induction false} OneNumber(n: nat, k: nat)
    ensures Written([Num(n, k)]) == Put(n, k)
  {
    NumFirst(n, k, []);
    assert [Num(n, k)] + [] == [Num(n, k)];
    NoFields();
  }

  lemma {:induction false} OneCounted(b: Bytes, k: nat)
    ensures Written(Counted(b, k)) == Put(|b|, k) + b
  {
    CountedFirst(b, k, []);
    assert Counted(b, k) + [] == Counted(b, k);
    NoFields();
  }

  // ---- HTTP payloads ----------------------------------------------------

  function Values(vs: seq<Bytes>): seq<Field> { if vs == [] then [] else Counted(vs[0], 2) + Values(vs[1..]) }

  /** A header: its key, the number of its values, and the values. */
  function EntryFields(k: Bytes, vs: seq<Bytes>): seq<Field> { Counted(k, 2) + ([Num(|vs|, 4)] + Values(vs)) }

  function Entries(order: seq<Bytes>, h: Headers): seq<Field>
    requires forall k :: k in order ==> k in h
  {
    if order == [] then []
    else EntryFields(order[0], h[order[0]]) + Entries(order[1..], h)
  }

  /** A body above the inline limit is announced by a length of all ones. */
  function BodyFields(b: Body): seq<Field> { if b.streamed then [Num(0xFFFF_FFFF, 4)] else Counted(b.data, 4) }

  lemma {:induction false} ValuesFirst(vs: seq<Bytes>, rest: seq<Field>)
    ensures Written(Values(vs) + rest) == ValuesBytes(vs) + Written(rest)
  {
    if vs == [] {
      assert Values(vs) + rest == rest;
    } else {
      assert Values(vs) + rest == Counted(vs[0], 2) + (Values(vs[1..]) + rest);
      CountedFirst(vs[0], 2, Values(vs[1..]) + rest);
      ValuesFirst(vs[1..], rest);
    }
  }

  lemma {:induction false} EntryFirst(k: Bytes, vs: seq<Bytes>, rest: seq<Field>)
    ensures Written(EntryFields(k, vs) + rest) == EntryBytes(k, vs) + Written(rest)
  {
    assert EntryFields(k, vs) + rest == Counted(k, 2) + ([Num(|vs|, 4)] + (Values(vs) + rest));
    CountedFirst(k, 2, [Num(|vs|, 4)] + (Values(vs) + rest));
    NumFirst(|vs|, 4, Values(vs) + rest);
    ValuesFirst(vs, rest);
    hide Written, Put, Values, ValuesBytes, Counted, EntryFields;
  }

  lemma {:induction false} EntriesFirst(order: seq<Bytes>, h: Headers, rest: seq<Field>)
    requires forall k :: k in order ==> k in h
    ensures Written(Entries(order, h) + rest) == EntriesBytes(order, h) + Written(rest)
  {
    if order == [] {
      assert Entries(order, h) + rest == rest;
    } else {
      var k, vs, more := order[0], h[order[0]], Entries(order[1..], h) + rest;
      assert Entries(order, h) + rest == EntryFields(k, vs) + more;
      EntryFirst(k, vs, more);
      EntriesFirst(order[1..], h, rest);
      hide Written, EntryFields, EntryBytes;
      assert EntryBytes(k, vs) + (EntriesBytes(order[1..], h) + Written(rest))
          == EntryBytes(k, vs) + EntriesBytes(order[1..], h) + Written(rest);
    }
  }

  /** Headers and body, as they end both payloads. */
  lemma {:induction false} EndLayout(order: seq<Bytes>, h: Headers, b: Body)
    requires forall k :: k in order ==> k in h
    ensures Written([Num(|h|, 4)] + (Entries(order, h) + BodyFields(b))) == HeadersBytes(order, h) + BodyBytes(b)
  {
    hide Written, Put, Entries, EntriesBytes, Counted;
    NumFirst(|h|, 4, Entries(order, h) + BodyFields(b));
    EntriesFirst(order, h, BodyFields(b));
    OneNumber(0xFFFF_FFFF, 4);
    OneCounted(b.data, 4);
  }

  /** A request: method, path, headers, body. A response: status, headers, body. */
  lemma {:induction false} MessageLayouts(q: HTTPRequest, r: HTTPResponse, order: seq<Bytes>, orderR: seq<Bytes>)
    requires (forall k :: k in order ==> k in q.headers) && forall k :: k in orderR ==> k in r.headers
    ensures RequestBytes(q, order)
         == Written(Counted(q.verb, 2)
                    + (Counted(q.path, 2)
                       + ([Num(|q.headers|, 4)] + (Entries(order, q.headers) + BodyFields(q.body)))))
    ensures ResponseBytes(r, orderR)
         == Written([Num(r.statusCode, 2)]
                    + ([Num(|r.headers|, 4)] + (Entries(orderR, r.headers) + BodyFields(r.body))))
  {
    var endQ := [Num(|q.headers|, 4)] + (Entries(order, q.headers) + BodyFields(q.body));
    var endR := [Num(|r.headers|, 4)] + (Entries(orderR, r.headers) + BodyFields(r.body));
    EndLayout(order, q.headers, q.body);
    EndLayout(orderR, r.headers, r.body);
    CountedFirst(q.verb, 2, Counted(q.path, 2) + endQ);
    CountedFirst(q.path, 2, endQ);
    NumFirst(r.statusCode, 2, endR);
    hide Written, Put, Entries, BodyFields, HeadersBytes, BodyBytes, Counted;
  }

  // ---- Limits -------------------------------------------------------------

  /** What a decoder accepts: at most 256 headers of at most 64 values, and a body of at most 32 MiB;
      in a frame of at most 34 MiB. */
  lemma {:induction false} Limits(h: Headers, b: Body, f: Frame, t: Bytes)
    ensures WithinLimits(h, b)
       <==> |h| <= 256 && (forall k :: k in h ==> |h[k]| <= 64)
            && if b.streamed then b.data == [] else |b.data| <= 32 * 1024 * 1024
    ensures DecodeFrame(FrameBytes(f) + t) == Some(f) <==> |f.payload| <= 34 * 1024 * 1024
  {
    FrameRoundTrip(f, t);
  }
}
