/**
 The payloads of MsgHTTPReq and MsgHTTPRes: the encoder as bytes, the decoder as a
 parser that returns what is left, and the laws that connect the two.
 */
module HttpCodec {
  import opened Basics
  import opened BigEndian

  const MAX_BODY_SIZE := 0x200_0000
  const MAX_HEADERS := 256
  const MAX_VALUES_PER_HEADER := 64
  const MAX_STRING_LEN := 65535
  const STREAMED_BODY_LEN := 0xFFFF_FFFF

  type Headers = map<Bytes, seq<Bytes>>
  datatype Body = Body(data: Bytes, streamed: bool)
  datatype HTTPRequest = HTTPRequest(verb: Bytes, path: Bytes, headers: Headers, body: Body)
  datatype HTTPResponse = HTTPResponse(statusCode: u16, headers: Headers, body: Body)

  /** A successful parse carries the value and the unread bytes. */
  datatype Parsed<+T> = Bad | Got(value: T, rest: Bytes)

  // ---- Encoding ---------------------------------------------------------

  predicate Fits(s: Bytes) { |s| <= MAX_STRING_LEN }

  predicate AllFit(vs: seq<Bytes>) { forall v :: v in vs ==> Fits(v) }

  predicate HeadersFit(h: Headers) { forall k :: k in h ==> Fits(k) && AllFit(h[k]) }

  function StringBytes(s: Bytes): Bytes { Put(|s|, 2) + s }

  function ValuesBytes(vs: seq<Bytes>): Bytes {
    if vs == [] then [] else StringBytes(vs[0]) + ValuesBytes(vs[1..])
  }

  function EntryBytes(k: Bytes, vs: seq<Bytes>): Bytes {
    StringBytes(k) + Put(|vs|, 4) + ValuesBytes(vs)
  }

  /** The header entries in the order a range over the map happened to visit them. */
  function EntriesBytes(order: seq<Bytes>, h: Headers): Bytes
    requires forall k :: k in order ==> k in h
  {
    if order == [] then [] else EntryBytes(order[0], h[order[0]]) + EntriesBytes(order[1..], h)
  }

  /** `order` visits every key of the map exactly once. */
  ghost predicate Enumerates(order: seq<Bytes>, h: Headers) {
    && (forall k :: k in order <==> k in h)
    && (forall i, j :: 0 <= i < j < |order| ==> order[i] != order[j])
  }

  function HeadersBytes(order: seq<Bytes>, h: Headers): Bytes
    requires forall k :: k in order ==> k in h
  {
    Put(|h|, 4) + EntriesBytes(order, h)
  }

  function BodyBytes(b: Body): Bytes {
    if b.streamed then Put(STREAMED_BODY_LEN, 4) else Put(|b.data|, 4) + b.data
  }

  function RequestBytes(r: HTTPRequest, order: seq<Bytes>): Bytes
    requires forall k :: k in order ==> k in r.headers
  {
    StringBytes(r.verb) + (StringBytes(r.path) + (HeadersBytes(order, r.headers) + BodyBytes(r.body)))
  }

  function ResponseBytes(r: HTTPResponse, order: seq<Bytes>): Bytes
    requires forall k :: k in order ==> k in r.headers
  {
    Put(r.statusCode, 2) + (HeadersBytes(order, r.headers) + BodyBytes(r.body))
  }

  // ---- Parsing ----------------------------------------------------------

  function ParseUint(s: Bytes, k: nat): Parsed<nat> {
    if |s| < k then Bad else Got(Get(s[..k]), s[k..])
  }

  function ParseString(s: Bytes): Parsed<Bytes> {
    match ParseUint(s, 2)
    case Bad => Bad
    case Got(n, r) => if n > |r| then Bad else Got(r[..n], r[n..])
  }

  function ParseValues(s: Bytes, n: nat): Parsed<seq<Bytes>> {
    if n == 0 then Got([], s) else
    match ParseString(s)
    case Bad => Bad
    case Got(v, r) =>
      match ParseValues(r, n - 1)
      case Bad => Bad
      case Got(vs, r') => Got([v] + vs, r')
  }

  function ParseEntry(s: Bytes): Parsed<(Bytes, seq<Bytes>)> {
    match ParseString(s)
    case Bad => Bad
    case Got(k, r) =>
      match ParseUint(r, 4)
      case Bad => Bad
      case Got(n, r1) =>
        if n > MAX_VALUES_PER_HEADER then Bad else
        match ParseValues(r1, n)
        case Bad => Bad
        case Got(vs, r2) => Got((k, vs), r2)
  }

  /** A repeated key overwrites the earlier one, as the map assignment does. */
  function ParseEntries(s: Bytes, n: nat, acc: Headers): Parsed<Headers>
    decreases n
  {
    if n == 0 then Got(acc, s) else
    match ParseEntry(s)
    case Bad => Bad
    case Got(e, r) => ParseEntries(r, n - 1, acc[e.0 := e.1])
  }

  function ParseHeaders(s: Bytes): Parsed<Headers> {
    match ParseUint(s, 4)
    case Bad => Bad
    case Got(n, r) =>
      if n > MAX_HEADERS || n * 2 > |r| then Bad else ParseEntries(r, n, map[])
  }

  function ParseBody(s: Bytes): Parsed<Body> {
    match ParseUint(s, 4)
    case Bad => Bad
    case Got(n, r) =>
      if n == STREAMED_BODY_LEN then Got(Body([], true), r)
      else if n > MAX_BODY_SIZE || n > |r| then Bad
      else Got(Body(r[..n], false), r[n..])
  }

  function ParseMessage(s: Bytes): Parsed<(Headers, Body)> {
    match ParseHeaders(s)
    case Bad => Bad
    case Got(h, r) =>
      match ParseBody(r)
      case Bad => Bad
      case Got(b, r') => Got((h, b), r')
  }

  function ParseRequest(s: Bytes): Parsed<HTTPRequest> {
    match ParseString(s)
    case Bad => Bad
    case Got(m, r) =>
      match ParseString(r)
      case Bad => Bad
      case Got(p, r1) =>
        match ParseMessage(r1)
        case Bad => Bad
        case Got(hb, r2) => Got(HTTPRequest(m, p, hb.0, hb.1), r2)
  }

  function ParseResponse(s: Bytes): Parsed<HTTPResponse> {
    match ParseUint(s, 2)
    case Bad => Bad
    case Got(c, r) =>
      match ParseMessage(r)
      case Bad => Bad
      case Got(hb, r1) => StatusBound(s); Got(HTTPResponse(c, hb.0, hb.1), r1)
  }

  lemma {:induction false} StatusBound(s: Bytes)
    requires |s| >= 2
    ensures Get(s[..2]) < 0x1_0000
  {
    GetBound(s[..2]);
    Widths();
  }

  // ---- Round trip -------------------------------------------------------

  lemma {:induction false} UintTrip(n: nat, k: nat, t: Bytes)
    requires n < Pow256(k)
    ensures ParseUint(Put(n, k) + t, k) == Got(n, t)
  {
    GetPut(n, k);
    assert (Put(n, k) + t)[..k] == Put(n, k) && (Put(n, k) + t)[k..] == t;
  }

  lemma {:induction false} StringTrip(s: Bytes, t: Bytes)
    requires Fits(s)
    ensures ParseString(StringBytes(s) + t) == Got(s, t)
  {
    Widths();
    UintTrip(|s|, 2, s + t);
    assert StringBytes(s) + t == Put(|s|, 2) + (s + t);
    assert (s + t)[..|s|] == s && (s + t)[|s|..] == t;
  }

  lemma {:induction false} ValuesTrip(vs: seq<Bytes>, t: Bytes)
    requires AllFit(vs)
    ensures ParseValues(ValuesBytes(vs) + t, |vs|) == Got(vs, t)
  {
    if vs == [] {
      assert ValuesBytes(vs) + t == t;
    } else {
      assert ValuesBytes(vs) + t == StringBytes(vs[0]) + (ValuesBytes(vs[1..]) + t);
      StringTrip(vs[0], ValuesBytes(vs[1..]) + t);
      ValuesTrip(vs[1..], t);
      assert vs == [vs[0]] + vs[1..];
    }
  }

  lemma {:induction false} EntryTrip(k: Bytes, vs: seq<Bytes>, t: Bytes)
    requires Fits(k) && AllFit(vs) && |vs| <= MAX_VALUES_PER_HEADER
    ensures ParseEntry(EntryBytes(k, vs) + t) == Got((k, vs), t)
  {
    var tail := ValuesBytes(vs) + t;
    assert EntryBytes(k, vs) + t == StringBytes(k) + (Put(|vs|, 4) + tail);
    StringTrip(k, Put(|vs|, 4) + tail);
    Widths();
    UintTrip(|vs|, 4, tail);
    ValuesTrip(vs, t);
  }

  /** Every header within the decoder's limits. */
  ghost predicate ValuesWithin(h: Headers) {
    forall k :: k in h ==> |h[k]| <= MAX_VALUES_PER_HEADER
  }

  /** The map that assigning the entries of `order` one after the other builds on `acc`. */
  function Assign(acc: Headers, order: seq<Bytes>, h: Headers): Headers
    requires forall k :: k in order ==> k in h
    decreases |order|
  {
    if order == [] then acc else Assign(acc[order[0] := h[order[0]]], order[1..], h)
  }

  lemma {:induction false} AssignAll(acc: Headers, order: seq<Bytes>, h: Headers)
    requires forall k :: k in order ==> k in h
    ensures Assign(acc, order, h).Keys == acc.Keys + (set k | k in order)
    ensures forall k :: k in Assign(acc, order, h) ==>
              Assign(acc, order, h)[k] == if k in order then h[k] else acc[k]
    decreases |order|
  {
    if order == [] {
    } else {
      AssignAll(acc[order[0] := h[order[0]]], order[1..], h);
      assert order == [order[0]] + order[1..];
    }
  }

  lemma {:induction false} EntriesTrip(order: seq<Bytes>, h: Headers, acc: Headers, t: Bytes)
    requires HeadersFit(h) && ValuesWithin(h)
    requires forall k :: k in order ==> k in h
    ensures ParseEntries(EntriesBytes(order, h) + t, |order|, acc) == Got(Assign(acc, order, h), t)
    decreases |order|
  {
    hide EntryBytes, ParseEntry, Fits, AllFit;
    if order == [] {
      assert EntriesBytes(order, h) + t == t;
    } else {
      var k0, more := order[0], order[1..];
      assert k0 in order;
      assert EntriesBytes(order, h) + t == EntryBytes(k0, h[k0]) + (EntriesBytes(more, h) + t);
      EntryTrip(k0, h[k0], EntriesBytes(more, h) + t);
      EntriesTrip(more, h, acc[k0 := h[k0]], t);
    }
  }

  lemma {:induction false} DistinctCount(order: seq<Bytes>, keys: set<Bytes>)
    requires forall k :: k in order <==> k in keys
    requires forall i, j :: 0 <= i < j < |order| ==> order[i] != order[j]
    ensures |order| == |keys|
  {
    if order == [] {
      assert keys == {};
    } else {
      var k0 := order[0];
      assert k0 in order;
      forall k ensures k in order[1..] <==> k in keys - {k0} {
        if k in order[1..] {
          var i :| 0 <= i < |order[1..]| && order[1..][i] == k;
          assert order[i + 1] == k;
        }
        if k in order && k != k0 {
          var i :| 0 <= i < |order| && order[i] == k;
          assert order[1..][i - 1] == k;
        }
      }
      DistinctCount(order[1..], keys - {k0});
    }
  }

  lemma {:induction false} EntriesLong(order: seq<Bytes>, h: Headers)
    requires forall k :: k in order ==> k in h
    ensures |EntriesBytes(order, h)| >= 6 * |order|
  {
    if order == [] {
    } else {
      EntriesLong(order[1..], h);
    }
  }

  lemma {:induction false} HeadersTrip(order: seq<Bytes>, h: Headers, t: Bytes)
    requires Enumerates(order, h) && HeadersFit(h)
    requires |h| <= MAX_HEADERS && ValuesWithin(h)
    ensures ParseHeaders(HeadersBytes(order, h) + t) == Got(h, t)
  {
    hide EntriesBytes, Fits, AllFit, Get, Pow256, ParseEntries, Assign, Put;
    DistinctCount(order, h.Keys);
    Widths();
    var tail := EntriesBytes(order, h) + t;
    assert HeadersBytes(order, h) + t == Put(|h|, 4) + tail;
    UintTrip(|h|, 4, tail);
    EntriesLong(order, h);
    EntriesTrip(order, h, map[], t);
    AssignAll(map[], order, h);
    assert Assign(map[], order, h) == h;
  }

  ghost predicate BodyWithin(b: Body) {
    if b.streamed then b.data == [] else |b.data| <= MAX_BODY_SIZE
  }

  lemma {:induction false} BodyTrip(b: Body, t: Bytes)
    requires BodyWithin(b)
    ensures ParseBody(BodyBytes(b) + t) == Got(b, t)
  {
    Widths();
    if b.streamed {
      UintTrip(STREAMED_BODY_LEN, 4, t);
    } else {
      UintTrip(|b.data|, 4, b.data + t);
      assert BodyBytes(b) + t == Put(|b.data|, 4) + (b.data + t);
      assert (b.data + t)[..|b.data|] == b.data && (b.data + t)[|b.data|..] == t;
    }
  }

  /** The limits readHeaders and readBody impose and writeHeaders and writeBody do not. */
  ghost predicate WithinLimits(h: Headers, b: Body) {
    |h| <= MAX_HEADERS && ValuesWithin(h) && BodyWithin(b)
  }

  lemma {:induction false} MessageTrip(order: seq<Bytes>, h: Headers, b: Body, t: Bytes)
    requires Enumerates(order, h) && HeadersFit(h) && WithinLimits(h, b)
    ensures ParseMessage(HeadersBytes(order, h) + BodyBytes(b) + t) == Got((h, b), t)
  {
    assert HeadersBytes(order, h) + BodyBytes(b) + t == HeadersBytes(order, h) + (BodyBytes(b) + t);
    HeadersTrip(order, h, BodyBytes(b) + t);
    BodyTrip(b, t);
  }

  // ---- Bounds on everything that is accepted ----------------------------

  lemma {:induction false} ValuesCount(s: Bytes, n: nat)
    ensures ParseValues(s, n).Got? ==> |ParseValues(s, n).value| == n
  {
    if n != 0 && ParseString(s).Got? {
      ValuesCount(ParseString(s).rest, n - 1);
    }
  }

  lemma {:induction false} EntryBounded(s: Bytes)
    ensures ParseEntry(s).Got? ==> |ParseEntry(s).value.1| <= MAX_VALUES_PER_HEADER
  {
    var k := ParseString(s);
    if k.Got? && ParseUint(k.rest, 4).Got? {
      ValuesCount(ParseUint(k.rest, 4).rest, ParseUint(k.rest, 4).value);
    }
  }

  lemma {:induction false} EntriesBounded(s: Bytes, n: nat, acc: Headers)
    requires ValuesWithin(acc)
    ensures var p := ParseEntries(s, n, acc);
            p.Got? ==> |p.value| <= |acc| + n && ValuesWithin(p.value)
    decreases n
  {
    hide ParseEntry;
    if n != 0 && ParseEntry(s).Got? {
      EntryBounded(s);
      var e, r := ParseEntry(s).value, ParseEntry(s).rest;
      assert acc[e.0 := e.1].Keys == acc.Keys + {e.0};
      EntriesBounded(r, n - 1, acc[e.0 := e.1]);
    }
  }

  /** Whatever the bytes are, an accepted message is within the limits. */
  lemma {:induction false} MessageBounded(s: Bytes)
    ensures ParseMessage(s).Got? ==> WithinLimits(ParseMessage(s).value.0, ParseMessage(s).value.1)
  {
    var n := ParseUint(s, 4);
    if n.Got? {
      EntriesBounded(n.rest, n.value, map[]);
    }
  }

  /** The codec's main law, and exactly when it holds: whatever order the header map is
      visited in and whatever follows the payload, the decoder gives the message back
      precisely when the message is within the limits only the decoder checks. */
  lemma {:induction false} RequestRoundTrip(r: HTTPRequest, order: seq<Bytes>, t: Bytes)
    requires Fits(r.verb) && Fits(r.path) && HeadersFit(r.headers)
    requires Enumerates(order, r.headers)
    ensures ParseRequest(RequestBytes(r, order) + t) == Got(r, t) <==> WithinLimits(r.headers, r.body)
  {
    var msg := HeadersBytes(order, r.headers) + BodyBytes(r.body);
    var s := RequestBytes(r, order) + t;
    assert s == StringBytes(r.verb) + (StringBytes(r.path) + (msg + t));
    StringTrip(r.verb, StringBytes(r.path) + (msg + t));
    StringTrip(r.path, msg + t);
    MessageBounded(msg + t);
    if WithinLimits(r.headers, r.body) {
      MessageTrip(order, r.headers, r.body, t);
    }
  }

  lemma {:induction false} ResponseRoundTrip(r: HTTPResponse, order: seq<Bytes>, t: Bytes)
    requires HeadersFit(r.headers) && Enumerates(order, r.headers)
    ensures ParseResponse(ResponseBytes(r, order) + t) == Got(r, t) <==> WithinLimits(r.headers, r.body)
  {
    var msg := HeadersBytes(order, r.headers) + BodyBytes(r.body);
    var s := ResponseBytes(r, order) + t;
    assert s == Put(r.statusCode, 2) + (msg + t);
    Widths();
    UintTrip(r.statusCode, 2, msg + t);
    MessageBounded(msg + t);
    if WithinLimits(r.headers, r.body) {
      MessageTrip(order, r.headers, r.body, t);
    }
  }

  /** Two visits of the same map give payloads the decoder cannot tell apart. */
  lemma {:induction false} OrderDoesNotMatter(r: HTTPRequest, order1: seq<Bytes>, order2: seq<Bytes>, t: Bytes)
    requires Fits(r.verb) && Fits(r.path) && HeadersFit(r.headers) && WithinLimits(r.headers, r.body)
    requires Enumerates(order1, r.headers) && Enumerates(order2, r.headers)
    ensures ParseRequest(RequestBytes(r, order1) + t) == ParseRequest(RequestBytes(r, order2) + t)
  {
    RequestRoundTrip(r, order1, t);
    RequestRoundTrip(r, order2, t);
  }

  // ---- Self-delimitation ------------------------------------------------

  lemma {:induction false} UintMore(s: Bytes, k: nat, t: Bytes)
    requires ParseUint(s, k).Got?
    ensures ParseUint(s + t, k) == Got(ParseUint(s, k).value, ParseUint(s, k).rest + t)
  {
    assert (s + t)[..k] == s[..k] && (s + t)[k..] == s[k..] + t;
  }

  lemma {:induction false} StringMore(s: Bytes, t: Bytes)
    requires ParseString(s).Got?
    ensures ParseString(s + t) == Got(ParseString(s).value, ParseString(s).rest + t)
  {
    UintMore(s, 2, t);
    var n, r := ParseUint(s, 2).value, ParseUint(s, 2).rest;
    assert (r + t)[..n] == r[..n] && (r + t)[n..] == r[n..] + t;
  }

  lemma {:induction false} ValuesMore(s: Bytes, n: nat, t: Bytes)
    requires ParseValues(s, n).Got?
    ensures ParseValues(s + t, n) == Got(ParseValues(s, n).value, ParseValues(s, n).rest + t)
  {
    if n == 0 {
    } else {
      StringMore(s, t);
      ValuesMore(ParseString(s).rest, n - 1, t);
    }
  }

  lemma {:induction false} EntryMore(s: Bytes, t: Bytes)
    requires ParseEntry(s).Got?
    ensures ParseEntry(s + t) == Got(ParseEntry(s).value, ParseEntry(s).rest + t)
  {
    StringMore(s, t);
    var r := ParseString(s).rest;
    UintMore(r, 4, t);
    ValuesMore(ParseUint(r, 4).rest, ParseUint(r, 4).value, t);
  }

  lemma {:induction false} EntriesMore(s: Bytes, n: nat, acc: Headers, t: Bytes)
    requires ParseEntries(s, n, acc).Got?
    ensures ParseEntries(s + t, n, acc) == Got(ParseEntries(s, n, acc).value, ParseEntries(s, n, acc).rest + t)
    decreases n
  {
    if n == 0 {
    } else {
      EntryMore(s, t);
      var e := ParseEntry(s);
      EntriesMore(e.rest, n - 1, acc[e.value.0 := e.value.1], t);
    }
  }

  lemma {:induction false} HeadersMore(s: Bytes, t: Bytes)
    requires ParseHeaders(s).Got?
    ensures ParseHeaders(s + t) == Got(ParseHeaders(s).value, ParseHeaders(s).rest + t)
  {
    UintMore(s, 4, t);
    EntriesMore(ParseUint(s, 4).rest, ParseUint(s, 4).value, map[], t);
  }

  lemma {:induction false} BodyMore(s: Bytes, t: Bytes)
    requires ParseBody(s).Got?
    ensures ParseBody(s + t) == Got(ParseBody(s).value, ParseBody(s).rest + t)
  {
    UintMore(s, 4, t);
    var n, r := ParseUint(s, 4).value, ParseUint(s, 4).rest;
    if n != STREAMED_BODY_LEN {
      assert (r + t)[..n] == r[..n] && (r + t)[n..] == r[n..] + t;
    }
  }

  lemma {:induction false} MessageMore(s: Bytes, t: Bytes)
    requires ParseMessage(s).Got?
    ensures ParseMessage(s + t) == Got(ParseMessage(s).value, ParseMessage(s).rest + t)
  {
    HeadersMore(s, t);
    BodyMore(ParseHeaders(s).rest, t);
  }

  lemma {:induction false} RequestMore(s: Bytes, t: Bytes)
    requires ParseRequest(s).Got?
    ensures ParseRequest(s + t) == Got(ParseRequest(s).value, ParseRequest(s).rest + t)
  {
    StringMore(s, t);
    var r := ParseString(s).rest;
    StringMore(r, t);
    MessageMore(ParseString(r).rest, t);
  }

  lemma {:induction false} ResponseMore(s: Bytes, t: Bytes)
    requires ParseResponse(s).Got?
    ensures ParseResponse(s + t) == Got(ParseResponse(s).value, ParseResponse(s).rest + t)
  {
    UintMore(s, 2, t);
    MessageMore(ParseUint(s, 2).rest, t);
  }

  /** No proper prefix of an encoding within the limits is accepted. */
  lemma {:induction false} RequestSelfDelimiting(r: HTTPRequest, order: seq<Bytes>, p: Bytes)
    requires Fits(r.verb) && Fits(r.path) && HeadersFit(r.headers) && WithinLimits(r.headers, r.body)
    requires Enumerates(order, r.headers)
    requires p < RequestBytes(r, order)
    ensures ParseRequest(p).Bad?
  {
    var s := RequestBytes(r, order);
    RequestRoundTrip(r, order, []);
    assert s + [] == s == p + s[|p|..];
    if ParseRequest(p).Got? {
      RequestMore(p, s[|p|..]);
    }
  }

  lemma {:induction false} ResponseSelfDelimiting(r: HTTPResponse, order: seq<Bytes>, p: Bytes)
    requires HeadersFit(r.headers) && WithinLimits(r.headers, r.body)
    requires Enumerates(order, r.headers)
    requires p < ResponseBytes(r, order)
    ensures ParseResponse(p).Bad?
  {
    var s := ResponseBytes(r, order);
    ResponseRoundTrip(r, order, []);
    assert s + [] == s == p + s[|p|..];
    if ParseResponse(p).Got? {
      ResponseMore(p, s[|p|..]);
    }
  }

  // ---- Decoded size -----------------------------------------------------

  function ValuesSize(vs: seq<Bytes>): nat {
    if vs == [] then 0 else |vs[0]| + ValuesSize(vs[1..])
  }

  /** Bytes held by a header map: every key and every value. */
  ghost function HeadersSize(h: Headers): nat {
    if h == map[] then 0 else
    var k :| k in h;
    |k| + ValuesSize(h[k]) + HeadersSize(h - {k})
  }

  lemma {:induction false} HeadersSizeAt(h: Headers, k: Bytes)
    requires k in h
    ensures HeadersSize(h) == |k| + ValuesSize(h[k]) + HeadersSize(h - {k})
    decreases |h|
  {
    assert h != map[];
    var j :| j in h && HeadersSize(h) == |j| + ValuesSize(h[j]) + HeadersSize(h - {j});
    if j == k {
    } else {
      HeadersSizeAt(h - {j}, k);
      HeadersSizeAt(h - {k}, j);
      assert h - {j} - {k} == h - {k} - {j};
    }
  }

  lemma {:induction false} HeadersSizePut(h: Headers, k: Bytes, vs: seq<Bytes>)
    ensures HeadersSize(h[k := vs]) <= HeadersSize(h) + |k| + ValuesSize(vs)
  {
    var h' := h[k := vs];
    HeadersSizeAt(h', k);
    if k in h {
      HeadersSizeAt(h, k);
      assert h' - {k} == h - {k};
    } else {
      assert h' - {k} == h;
    }
  }

  lemma {:induction false} ValuesConsume(s: Bytes, n: nat)
    ensures var p := ParseValues(s, n); p.Got? ==> ValuesSize(p.value) + 2 * n + |p.rest| == |s|
  {
    if n != 0 && ParseString(s).Got? {
      ValuesConsume(ParseString(s).rest, n - 1);
    }
  }

  lemma {:induction false} EntriesConsume(s: Bytes, n: nat, acc: Headers)
    ensures var p := ParseEntries(s, n, acc);
            p.Got? ==> HeadersSize(p.value) + 6 * n + |p.rest| <= HeadersSize(acc) + |s|
    decreases n
  {
    if n != 0 && ParseEntry(s).Got? {
      var e := ParseEntry(s);
      var c := ParseUint(ParseString(s).rest, 4);
      ValuesConsume(c.rest, c.value);
      HeadersSizePut(acc, e.value.0, e.value.1);
      EntriesConsume(e.rest, n - 1, acc[e.value.0 := e.value.1]);
    }
  }

  lemma {:induction false} MessageConsumes(s: Bytes)
    ensures var p := ParseMessage(s);
            p.Got? ==> HeadersSize(p.value.0) + 6 * |p.value.0| + |p.value.1.data| + |p.rest| + 8 <= |s|
  {
    var n := ParseUint(s, 4);
    if n.Got? {
      EntriesConsume(n.rest, n.value, map[]);
      EntriesBounded(n.rest, n.value, map[]);
    }
  }

  /** Everything a decoded request holds was in the payload, whatever counts it claims. This
      bounds the value; the buffers the decoder makes before it finds a payload short are
      bounded only by its limits on counts and on the body. */
  lemma {:induction false} RequestSizeBound(s: Bytes)
    ensures var p := ParseRequest(s);
            p.Got? ==>
              && |p.value.headers| <= MAX_HEADERS
              && ValuesWithin(p.value.headers)
              && |p.value.verb| + |p.value.path| + HeadersSize(p.value.headers) + |p.value.body.data| + |p.rest| + 12
                   <= |s|
  {
    var m := ParseString(s);
    if m.Got? && ParseString(m.rest).Got? {
      MessageConsumes(ParseString(m.rest).rest);
      MessageBounded(ParseString(m.rest).rest);
    }
  }

  lemma {:induction false} ResponseSizeBound(s: Bytes)
    ensures var p := ParseResponse(s);
            p.Got? ==>
              && |p.value.headers| <= MAX_HEADERS
              && ValuesWithin(p.value.headers)
              && HeadersSize(p.value.headers) + |p.value.body.data| + |p.rest| + 10 <= |s|
  {
    if |s| >= 2 {
      MessageConsumes(ParseUint(s, 2).rest);
      MessageBounded(ParseUint(s, 2).rest);
    }
  }
}
