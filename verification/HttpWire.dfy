/**
 The encoder and decoder as they run: a growing buffer, a cursor over the payload, and
 the header loops. Each is proved to compute the bytes or the parse of HttpCodec.
 */
module HttpWire {
  import opened Basics
  import opened BigEndian
  import opened HttpCodec

  /** bytes.Buffer. */
  class Buffer {
    var bytes: Bytes

    constructor ()
      ensures bytes == []
    {
      bytes := [];
    }

    method WriteUint(n: nat, k: nat)
      modifies this
      ensures bytes == old(bytes) + Put(n, k)
    {
      bytes := bytes + Put(n, k);
    }

    method WriteString(s: Bytes) returns (ok: bool)
      modifies this
      ensures ok == Fits(s)
      ensures bytes == if ok then old(bytes) + StringBytes(s) else old(bytes)
    {
      if |s| > MAX_STRING_LEN {
        return false;
      }
      WriteUint(|s|, 2);
      bytes := bytes + s;
      return true;
    }

    method WriteValues(vs: seq<Bytes>) returns (ok: bool)
      modifies this
      ensures ok == AllFit(vs)
      ensures ok ==> bytes == old(bytes) + ValuesBytes(vs)
    {
      for j := 0 to |vs|
        invariant AllFit(vs[..j])
        invariant bytes + ValuesBytes(vs[j..]) == old(bytes) + ValuesBytes(vs)
      {
        ok := WriteString(vs[j]);
        if !ok {
          assert vs[j] in vs;
          return;
        }
        assert vs[j..][1..] == vs[j + 1..];
        assert vs[..j + 1] == vs[..j] + [vs[j]];
      }
      assert vs[..|vs|] == vs;
      return true;
    }

    method WriteEntry(k: Bytes, vs: seq<Bytes>) returns (ok: bool)
      modifies this
      ensures ok == (Fits(k) && AllFit(vs))
      ensures ok ==> bytes == old(bytes) + EntryBytes(k, vs)
    {
      ok := WriteString(k);
      if !ok {
        return;
      }
      WriteUint(|vs|, 4);
      ok := WriteValues(vs);
    }

    /** The map is visited in whatever order the runtime picks; `order` records it. */
    method WriteEntries(h: Headers) returns (ok: bool, ghost order: seq<Bytes>)
      modifies this
      ensures ok == HeadersFit(h)
      ensures ok ==> Visited(order, h.Keys) && bytes == old(bytes) + EntriesBytes(order, h)
    {
      hide EntryBytes, Fits, AllFit;
      order := [];
      var todo := h.Keys;
      while todo != {}
        invariant todo <= h.Keys && Visited(order, h.Keys - todo)
        invariant forall k :: k in h.Keys - todo ==> Fits(k) && AllFit(h[k])
        invariant bytes == old(bytes) + EntriesBytes(order, h)
      {
        var k :| k in todo;
        ok := WriteEntry(k, h[k]);
        if !ok {
          return;
        }
        EntriesSnoc(order, k, h);
        VisitedSnoc(order, h.Keys - todo, k);
        assert h.Keys - (todo - {k}) == h.Keys - todo + {k};
        order := order + [k];
        todo := todo - {k};
      }
      assert h.Keys - todo == h.Keys;
      ok := true;
    }

    method WriteHeaders(h: Headers) returns (ok: bool, ghost order: seq<Bytes>)
      modifies this
      ensures ok == HeadersFit(h)
      ensures ok ==> Enumerates(order, h) && bytes == old(bytes) + HeadersBytes(order, h)
    {
      WriteUint(|h|, 4);
      ok, order := WriteEntries(h);
    }

    method WriteBody(b: Body)
      modifies this
      ensures bytes == old(bytes) + BodyBytes(b)
    {
      if b.streamed {
        WriteUint(STREAMED_BODY_LEN, 4);
        return;
      }
      WriteUint(|b.data|, 4);
      bytes := bytes + b.data;
    }
  }

  /** `order` lists exactly the keys in `seen`, each once. */
  ghost predicate Visited(order: seq<Bytes>, seen: set<Bytes>) {
    && (forall k :: k in order <==> k in seen)
    && (forall i, j :: 0 <= i < j < |order| ==> order[i] != order[j])
  }

  lemma {:induction false} VisitedSnoc(order: seq<Bytes>, seen: set<Bytes>, k: Bytes)
    requires Visited(order, seen) && k !in seen
    ensures Visited(order + [k], seen + {k})
  {
    forall i | 0 <= i < |order| ensures order[i] != k {
      assert order[i] in order;
    }
  }

  lemma {:induction false} EntriesSnoc(order: seq<Bytes>, k: Bytes, h: Headers)
    requires k in h && forall j :: j in order ==> j in h
    ensures EntriesBytes(order + [k], h) == EntriesBytes(order, h) + EntryBytes(k, h[k])
  {
    if order == [] {
      assert order + [k] == [k] && [k][1..] == [];
      assert EntriesBytes([k], h) == EntryBytes(k, h[k]) + EntriesBytes([], h);
    } else {
      assert (order + [k])[1..] == order[1..] + [k];
      EntriesSnoc(order[1..], k, h);
    }
  }

  lemma {:induction false} Reassociate(a: Bytes, b: Bytes, c: Bytes, d: Bytes)
    ensures [] + a + b + c + d == a + (b + (c + d))
  {
  }

  method EncodeHTTPRequest(r: HTTPRequest) returns (payload: Option<Bytes>, ghost order: seq<Bytes>)
    ensures payload.Some? <==> Fits(r.verb) && Fits(r.path) && HeadersFit(r.headers)
    ensures payload.Some? ==> Enumerates(order, r.headers) && payload.value == RequestBytes(r, order)
  {
    hide StringBytes, HeadersBytes, BodyBytes, HeadersFit, Fits, Enumerates;
    order := [];
    var buf := new Buffer();
    var ok := buf.WriteString(r.verb);
    if !ok { return None, []; }
    ok := buf.WriteString(r.path);
    if !ok { return None, []; }
    ok, order := buf.WriteHeaders(r.headers);
    if !ok { return None, []; }
    buf.WriteBody(r.body);
    payload := Some(buf.bytes);
    Reassociate(StringBytes(r.verb), StringBytes(r.path), HeadersBytes(order, r.headers), BodyBytes(r.body));
  }

  method EncodeHTTPResponse(r: HTTPResponse) returns (payload: Option<Bytes>, ghost order: seq<Bytes>)
    ensures payload.Some? <==> HeadersFit(r.headers)
    ensures payload.Some? ==> Enumerates(order, r.headers) && payload.value == ResponseBytes(r, order)
  {
    hide HeadersBytes, BodyBytes, HeadersFit, Enumerates, Put;
    order := [];
    var buf := new Buffer();
    buf.WriteUint(r.statusCode, 2);
    var ok;
    ok, order := buf.WriteHeaders(r.headers);
    if !ok { return None, []; }
    buf.WriteBody(r.body);
    payload := Some(buf.bytes);
  }

  /** A read agrees with a parse: both fail, or both give the same value and rest. */
  ghost predicate Agrees<T(!new)>(r: Option<T>, rest: Bytes, p: Parsed<T>) {
    match p
    case Bad => r.None?
    case Got(v, after) => r == Some(v) && rest == after
  }

  ghost function Prepend(vs: seq<Bytes>, p: Parsed<seq<Bytes>>): Parsed<seq<Bytes>> {
    match p
    case Bad => Bad
    case Got(ws, r) => Got(vs + ws, r)
  }

  /** bytes.Reader: the payload and the cursor that the read functions advance. */
  class Reader {
    const data: Bytes
    var pos: nat

    ghost predicate Valid()
      reads this
    {
      pos <= |data|
    }

    ghost function Rest(): Bytes
      requires Valid()
      reads this
    {
      data[pos..]
    }

    constructor (data: Bytes)
      ensures this.data == data && Valid() && Rest() == data
    {
      this.data := data;
      pos := 0;
    }

    method ReadUint(k: nat) returns (r: Option<nat>)
      requires Valid()
      modifies this
      ensures Valid() && Agrees(r, Rest(), ParseUint(old(Rest()), k))
    {
      if |data| - pos < k {
        return None;
      }
      assert data[pos..][..k] == data[pos..pos + k];
      r := Some(Get(data[pos..pos + k]));
      pos := pos + k;
    }

    method ReadString() returns (r: Option<Bytes>)
      requires Valid()
      modifies this
      ensures Valid() && Agrees(r, Rest(), ParseString(old(Rest())))
    {
      var length := ReadUint(2);
      if length.None? || length.value > |data| - pos {
        return None;
      }
      var n := length.value;
      assert data[pos..][..n] == data[pos..pos + n];
      r := Some(data[pos..pos + n]);
      pos := pos + n;
    }

    method ReadValues(n: nat) returns (r: Option<seq<Bytes>>)
      requires Valid()
      modifies this
      ensures Valid() && Agrees(r, Rest(), ParseValues(old(Rest()), n))
    {
      hide ParseString, Get;
      var values: seq<Bytes> := [];
      ghost var all := ParseValues(Rest(), n);
      assert all.Got? ==> [] + all.value == all.value;
      for j := 0 to n
        invariant Valid()
        invariant Prepend(values, ParseValues(Rest(), n - j)) == ParseValues(old(Rest()), n)
      {
        var v := ReadString();
        if v.None? {
          return None;
        }
        ghost var more := ParseValues(Rest(), n - j - 1);
        if more.Got? {
          assert values + ([v.value] + more.value) == values + [v.value] + more.value;
        }
        values := values + [v.value];
      }
      assert values + [] == values;
      r := Some(values);
    }

    method ReadEntry() returns (r: Option<(Bytes, seq<Bytes>)>)
      requires Valid()
      modifies this
      ensures Valid() && Agrees(r, Rest(), ParseEntry(old(Rest())))
    {
      hide ParseString, ParseValues, Get;
      var k := ReadString();
      if k.None? {
        return None;
      }
      var valueCount := ReadUint(4);
      if valueCount.None? || valueCount.value > MAX_VALUES_PER_HEADER {
        return None;
      }
      var values := ReadValues(valueCount.value);
      if values.None? {
        return None;
      }
      r := Some((k.value, values.value));
    }

    method ReadHeaders() returns (r: Option<Headers>)
      requires Valid()
      modifies this
      ensures Valid() && Agrees(r, Rest(), ParseHeaders(old(Rest())))
    {
      hide ParseEntry, ParseValues, ParseString, Get;
      var count := ReadUint(4);
      if count.None? || count.value > MAX_HEADERS || count.value * 2 > |data| - pos {
        return None;
      }
      var n := count.value;
      ghost var start := Rest();
      var headers: Headers := map[];
      for i := 0 to n
        invariant Valid()
        invariant ParseEntries(Rest(), n - i, headers) == ParseEntries(start, n, map[])
      {
        var entry := ReadEntry();
        if entry.None? {
          return None;
        }
        headers := headers[entry.value.0 := entry.value.1];
      }
      r := Some(headers);
    }

    method ReadBody() returns (r: Option<Body>)
      requires Valid()
      modifies this
      ensures Valid() && Agrees(r, Rest(), ParseBody(old(Rest())))
    {
      var length := ReadUint(4);
      if length.None? {
        return None;
      }
      var n := length.value;
      if n == STREAMED_BODY_LEN {
        return Some(Body([], true));
      }
      if n > MAX_BODY_SIZE || n > |data| - pos {
        return None;
      }
      assert data[pos..][..n] == data[pos..pos + n];
      r := Some(Body(data[pos..pos + n], false));
      pos := pos + n;
    }
  }

  /** The part that requests and responses share: headers, then body. */
  method ReadMessage(reader: Reader) returns (r: Option<(Headers, Body)>)
    requires reader.Valid()
    modifies reader
    ensures reader.Valid() && Agrees(r, reader.Rest(), ParseMessage(old(reader.Rest())))
  {
    hide ParseHeaders, ParseBody;
    var headers := reader.ReadHeaders();
    if headers.None? { return None; }
    var body := reader.ReadBody();
    if body.None? { return None; }
    r := Some((headers.value, body.value));
  }

  /** Trailing bytes are ignored, as the caller drops the reader. */
  method DecodeHTTPRequest(data: Bytes) returns (r: Option<HTTPRequest>)
    ensures match ParseRequest(data) case Bad => r.None? case Got(v, _) => r == Some(v)
  {
    hide ParseString, ParseMessage;
    var reader := new Reader(data);
    var verb := reader.ReadString();
    if verb.None? { return None; }
    var path := reader.ReadString();
    if path.None? { return None; }
    var message := ReadMessage(reader);
    if message.None? { return None; }
    r := Some(HTTPRequest(verb.value, path.value, message.value.0, message.value.1));
  }

  method DecodeHTTPResponse(data: Bytes) returns (r: Option<HTTPResponse>)
    ensures match ParseResponse(data) case Bad => r.None? case Got(v, _) => r == Some(v)
  {
    var reader := new Reader(data);
    var code := reader.ReadUint(2);
    if code.None? { return None; }
    StatusBound(data);
    var message := ReadMessage(reader);
    if message.None? { return None; }
    r := Some(HTTPResponse(code.value, message.value.0, message.value.1));
  }
}
