/**
 Request bodies: inline up to the limit, otherwise a buffered head and the rest pumped as
 data frames, queued on the client's body stream and read back by the local request.
 */
module BodyReader {
  import opened Basics
  import opened Link

  // ---- bodyStreamReader -------------------------------------------------

  datatype Outcome = Got(n: nat) | Eof | Aborted | TunnelClosed | Waiting

  /** A read of up to `size` bytes: what it hands over, and what is left of the chunk in hand
      and of the queue. It serves the first chunk that has any bytes. */
  function Took(size: nat, rem: Bytes, queue: seq<Bytes>): (r: (Bytes, Bytes, seq<Bytes>))
    decreases |queue|
  {
    if rem != [] || queue == [] then (rem[..Min(|rem|, size)], rem[Min(|rem|, size)..], queue)
    else Took(size, queue[0], queue[1..])
  }

  lemma {:induction false} TookNext(size: nat, queue: seq<Bytes>)
    requires queue != []
    ensures Took(size, [], queue) == Took(size, queue[0], queue[1..]) && [] + Flat(queue) == queue[0] + Flat(queue[1..])
  {
  }

  /** Nothing is lost or reordered, and a read gives nothing only when nothing is left. */
  lemma {:induction false} TookConserves(size: nat, rem: Bytes, queue: seq<Bytes>)
    ensures var (got, left, rest) := Took(size, rem, queue);
            && got + (left + Flat(rest)) == rem + Flat(queue)
            && |got| <= size && (size > 0 && got == [] ==> rem + Flat(queue) == [])
            && (|got| == size || left == [])
    decreases |queue|
  {
    if rem != [] || queue == [] {
      var n := Min(|rem|, size);
      assert rem[..n] + (rem[n..] + Flat(queue)) == rem + Flat(queue);
    } else {
      TookNext(size, queue);
      TookConserves(size, queue[0], queue[1..]);
    }
  }

  lemma {:induction false} TookHere(size: nat, rem: Bytes, queue: seq<Bytes>)
    requires rem != []
    ensures Took(size, rem, queue) == (rem[..Min(|rem|, size)], rem[Min(|rem|, size)..], queue)
  {
  }

  /** Go's copy into a byte slice. */
  method Copy(p: array<byte>, src: Bytes) returns (n: nat)
    modifies p
    ensures n == Min(|src|, p.Length) && p[..n] == src[..n] && p[n..] == old(p[n..])
  {
    n := Min(|src|, p.Length);
    for i := 0 to n
      invariant p[..i] == src[..i] && p[n..] == old(p[n..])
    {
      p[i] := src[i];
      assert p[..i + 1] == p[..i] + [src[i]];
    }
  }

  class BodyStream {
    var queue: seq<Bytes>
    var closed: bool
    var aborted: bool

    constructor ()
      ensures queue == [] && !closed && !aborted
    {
      queue, closed, aborted := [], false, false;
    }
  }

  class BodyStreamReader {
    const s: BodyStream
    var rem: Bytes

    constructor (s: BodyStream)
      ensures this.s == s && rem == []
    {
      this.s := s;
      rem := [];
    }

    /** The bytes still to be read. */
    ghost function Pending(): Bytes
      reads this, s
    {
      rem + Flat(s.queue)
    }

    /** Read into p. `closing` says that the tunnel is closed: with a chunk also at hand the
        select may take either branch, as `choice` decides. Where the original would wait for
        a chunk, the outcome is Waiting. */
    method Read(p: array<byte>, closing: bool, choice: nat) returns (r: Outcome)
      modifies this, s`queue, p
      ensures r.Got? ==>
                && r.n <= p.Length && (p[..r.n], rem, s.queue) == Took(p.Length, old(rem), old(s.queue))
                && p[r.n..] == old(p[r.n..])
      ensures !r.Got? ==> Pending() == old(Pending()) && p[..] == old(p[..]) && rem == []
      ensures r == Eof ==> old(Pending()) == [] && s.closed && !s.aborted
      ensures r == Aborted ==> old(Pending()) == [] && s.closed && s.aborted
      ensures r == TunnelClosed ==> closing
      ensures r == Waiting ==> old(Pending()) == [] && !s.closed && !closing
    {
      hide Flat, Took;
      var looked := 0;
      while |rem| == 0
        invariant Pending() == old(Pending()) && p[..] == old(p[..])
        invariant Took(p.Length, rem, s.queue) == Took(p.Length, old(rem), old(s.queue))
        decreases |s.queue| + (if |rem| == 0 then 1 else 0)
      {
        if closing && (looked >= choice || (s.queue == [] && !s.closed)) {
          return TunnelClosed;
        }
        looked := looked + 1;
        if s.queue == [] {
          FlatNone(s.queue);
          if !s.closed {
            return Waiting;
          }
          if s.aborted {
            return Aborted;
          }
          return Eof;
        }
        TookNext(p.Length, s.queue);
        rem, s.queue := s.queue[0], s.queue[1..];
      }
      TookHere(p.Length, rem, s.queue);
      var n := Copy(p, rem);
      rem := rem[n..];
      return Got(n);
    }
  }

  // ---- Any number of reads ----------------------------------------------

  /** The concatenation of reads with buffers of these sizes. */
  function ReadAll(sizes: seq<nat>, rem: Bytes, queue: seq<Bytes>): Bytes {
    if sizes == [] then []
    else
      var (got, left, rest) := Took(sizes[0], rem, queue);
      got + ReadAll(sizes[1..], left, rest)
  }

  /** For any chunks and any buffer sizes, what is read is a prefix of the chunks. */
  lemma {:induction false} ReadsArePrefix(sizes: seq<nat>, rem: Bytes, queue: seq<Bytes>)
    ensures ReadAll(sizes, rem, queue) <= rem + Flat(queue)
  {
    if sizes == [] {
    } else {
      TookConserves(sizes[0], rem, queue);
      var (got, left, rest) := Took(sizes[0], rem, queue);
      ReadsArePrefix(sizes[1..], left, rest);
      hide Took, Flat;
      Prefixed(got, ReadAll(sizes[1..], left, rest), left + Flat(rest));
    }
  }

  lemma {:induction false} Prefixed(a: Bytes, b: Bytes, c: Bytes)
    requires b <= c
    ensures a + b <= a + c
  {
  }

  predicate AllPositive(sizes: seq<nat>) { forall i :: 0 <= i < |sizes| ==> sizes[i] > 0 }

  /** With buffers that hold anything at all, as many reads as there are bytes get them all. */
  lemma {:induction false} EnoughReads(sizes: seq<nat>, rem: Bytes, queue: seq<Bytes>)
    requires AllPositive(sizes) && |sizes| >= |rem + Flat(queue)|
    ensures ReadAll(sizes, rem, queue) == rem + Flat(queue)
  {
    if sizes == [] {
    } else {
      TookConserves(sizes[0], rem, queue);
      var (got, left, rest) := Took(sizes[0], rem, queue);
      hide Took, Flat;
      assert |got + (left + Flat(rest))| == |got| + |left + Flat(rest)|;
      EnoughReads(sizes[1..], left, rest);
    }
  }

  // ---- pumpRequestBody --------------------------------------------------

  /** One read of the viewer's body: its bytes, and whether it was the last. */
  datatype ReadResult = ReadResult(b: Bytes, last: bool)

  function BytesOf(results: seq<ReadResult>): Bytes {
    if results == [] then [] else results[0].b + BytesOf(results[1..])
  }

  /** Reads go on until the first that reports an end. */
  ghost predicate EndsOnce(results: seq<ReadResult>) {
    results != [] && forall i :: 0 <= i < |results| ==> (results[i].last <==> i == |results| - 1)
  }

  lemma {:induction false} BytesOfSnoc(results: seq<ReadResult>, x: ReadResult)
    ensures BytesOf(results + [x]) == BytesOf(results) + x.b
  {
    if results == [] {
      assert results + [x] == [x] && [x][1..] == [];
      assert x.b + [] == [] + x.b;
    } else {
      assert (results + [x])[1..] == results[1..] + [x];
      BytesOfSnoc(results[1..], x);
      assert results[0].b + (BytesOf(results[1..]) + x.b) == results[0].b + BytesOf(results[1..]) + x.b;
    }
  }

  lemma {:induction false} FlatOne(b: Bytes)
    ensures Flat([b]) == b && Flat<byte>([]) == [] && BytesOf([]) == []
  {
    assert b + [] == b;
  }

  lemma {:induction false} PumpStep(prefix: Bytes, results: seq<ReadResult>, i: nat, chunks: seq<Bytes>)
    requires i < |results| && Flat(chunks) == prefix + BytesOf(results[..i])
    ensures Flat(chunks + [results[i].b]) == prefix + BytesOf(results[..i + 1])
    ensures results[i].b == [] ==> Flat(chunks) == prefix + BytesOf(results[..i + 1])
  {
    var x, before := results[i], BytesOf(results[..i]);
    assert results[..i + 1] == results[..i] + [x];
    BytesOfSnoc(results[..i], x);
    FlatSnoc(chunks, x.b);
    hide Flat, BytesOf;
    assert prefix + before + x.b == prefix + (before + x.b);
    assert before + [] == before;
  }

  lemma {:induction false} PumpedPrefix(prefix: Bytes, results: seq<ReadResult>, i: nat)
    requires i <= |results|
    ensures prefix + BytesOf(results[..i]) <= prefix + BytesOf(results)
    decreases |results| - i
  {
    if i < |results| {
      PumpedPrefix(prefix, results, i + 1);
      assert results[..i + 1] == results[..i] + [results[i]];
      BytesOfSnoc(results[..i], results[i]);
    } else {
      assert results[..i] == results;
    }
  }

  /** The data frames of these chunks. */
  function Sent(chunks: seq<Bytes>): (frames: seq<Msg>)
    ensures |frames| == |chunks| && forall i :: 0 <= i < |chunks| ==> frames[i] == Data(chunks[i])
    ensures Datas(frames) == chunks
  {
    if chunks == [] then []
    else
      var rest := Sent(chunks[1..]);
      assert ([Data(chunks[0])] + rest)[1..] == rest && [chunks[0]] + chunks[1..] == chunks;
      [Data(chunks[0])] + rest
  }

  /** The chunks sent from the i-th read on, after `chunks`: until a read reports an end, a
      write fails after `sends` of them, or the exchange is over after `stop` reads. */
  function Pumped(chunks: seq<Bytes>, results: seq<ReadResult>, i: nat, sends: nat, stop: nat): seq<Bytes>
    decreases |results| - i
  {
    if i >= |results| || i >= stop then chunks
    else
      var x := results[i];
      if x.b != [] && |chunks| >= sends then chunks
      else
        var more := if x.b == [] then chunks else chunks + [x.b];
        if x.last then more else Pumped(more, results, i + 1, sends, stop)
  }

  /** All chunks of an upload: the buffered head, and what the reads bring. */
  function PumpedAll(prefix: Bytes, results: seq<ReadResult>, sends: nat, stop: nat): seq<Bytes> {
    if sends == 0 then [] else Pumped([prefix], results, 0, sends, stop)
  }

  /** The one close is the last frame. */
  ghost predicate ClosedBy(frames: seq<Msg>) {
    frames != [] && forall i :: 0 <= i < |frames| ==> (frames[i] == Close <==> i == |frames| - 1)
  }

  function Closed(chunks: seq<Bytes>): (frames: seq<Msg>)
    ensures Datas(frames) == chunks && ClosedBy(frames) && |frames| == |chunks| + 1
  {
    DatasAppend(Sent(chunks), [Close]);
    assert [Close][1..] == [];
    Sent(chunks) + [Close]
  }

  /** The frames of an upload whose body reads like this, when the first `sends` data frames
      can be written and `stop` reads are made before the exchange is over. However the pump
      ends, its close frame comes last. */
  method PumpRequestBody(prefix: Bytes, results: seq<ReadResult>, sends: nat, stop: nat) returns (frames: seq<Msg>)
    requires EndsOnce(results)
    ensures Datas(frames) == PumpedAll(prefix, results, sends, stop)
    ensures ClosedBy(frames) && |frames| == |Datas(frames)| + 1
    ensures sends > |results| && stop >= |results| ==> Flat(Datas(frames)) == prefix + BytesOf(results)
  {
    PumpedAllBytes(prefix, results, sends, stop);
    hide Flat, BytesOf;
    if sends == 0 {
      return Closed([]);
    }
    var chunks := [prefix];
    var i := 0;
    while true
      invariant 0 <= i < |results|
      invariant Pumped(chunks, results, i, sends, stop) == Pumped([prefix], results, 0, sends, stop)
      decreases |results| - i
    {
      if i >= stop {
        return Closed(chunks);
      }
      var x := results[i];
      if x.b != [] {
        if |chunks| >= sends {
          return Closed(chunks);
        }
        chunks := chunks + [x.b];
      }
      if x.last {
        return Closed(chunks);
      }
      i := i + 1;
    }
  }

  function Brought(results: seq<ReadResult>): seq<Bytes> {
    if results == [] then []
    else (if results[0].b == [] then [] else [results[0].b]) + Brought(results[1..])
  }

  function First(n: nat, chunks: seq<Bytes>): seq<Bytes> { if n < |chunks| then chunks[..n] else chunks }

  lemma {:induction false} PumpedFrom(chunks: seq<Bytes>, results: seq<ReadResult>, i: nat, sends: nat, stop: nat)
    requires EndsOnce(results) && i <= stop && i < |results| && |chunks| <= sends
    ensures Pumped(chunks, results, i, sends, stop)
         == First(sends, chunks + Brought(results[i..if stop < |results| then stop else |results|]))
    decreases |results| - i
  {
    var seen := results[i..if stop < |results| then stop else |results|];
    if i < stop {
      var x := results[i];
      assert seen == [x] + seen[1..];
      if x.b != [] && |chunks| >= sends {
        assert (chunks + Brought(seen))[..sends] == chunks;
      } else {
        var more := if x.b == [] then chunks else chunks + [x.b];
        assert chunks + Brought(seen) == more + Brought(seen[1..]);
        if x.last {
          assert seen[1..] == [];
        } else {
          PumpedFrom(more, results, i + 1, sends, stop);
        }
      }
    } else {
      assert seen == [] && chunks + [] == chunks;
    }
  }

  /** Which chunks are sent: the head and every non-empty read made before the exchange is over,
      in order, as far as writing goes. */
  lemma {:induction false} PumpedIs(prefix: Bytes, results: seq<ReadResult>, sends: nat, stop: nat)
    requires EndsOnce(results)
    ensures PumpedAll(prefix, results, sends, stop)
         == First(sends, [prefix] + Brought(results[..if stop < |results| then stop else |results|]))
  {
    if sends > 0 {
      PumpedFrom([prefix], results, 0, sends, stop);
    }
  }

  /** The chunks carry a prefix of the body, and all of it when nothing cuts the pump short. */
  lemma {:induction false} PumpedBytes(prefix: Bytes, chunks: seq<Bytes>, results: seq<ReadResult>, i: nat, sends: nat,
                                       stop: nat)
    requires EndsOnce(results) && i < |results| && Flat(chunks) == prefix + BytesOf(results[..i]) && |chunks| <= 1 + i
    ensures var all := Pumped(chunks, results, i, sends, stop);
            && Flat(all) <= prefix + BytesOf(results)
            && (sends > |results| && stop >= |results| ==> Flat(all) == prefix + BytesOf(results))
    decreases |results| - i
  {
    PumpedPrefix(prefix, results, i);
    PumpStep(prefix, results, i, chunks);
    PumpedPrefix(prefix, results, i + 1);
    var x := results[i];
    var more := if x.b == [] then chunks else chunks + [x.b];
    if i < stop && (x.b == [] || |chunks| < sends) && !x.last {
      PumpedBytes(prefix, more, results, i + 1, sends, stop);
    }
    assert x.last ==> results[..i + 1] == results;
    hide Flat, BytesOf;
  }

  lemma {:induction false} PumpedAllBytes(prefix: Bytes, results: seq<ReadResult>, sends: nat, stop: nat)
    requires EndsOnce(results)
    ensures var all := PumpedAll(prefix, results, sends, stop);
            && Flat(all) <= prefix + BytesOf(results)
            && (sends > |results| && stop >= |results| ==> Flat(all) == prefix + BytesOf(results))
  {
    FlatOne(prefix);
    assert results[..0] == [] && prefix + [] == prefix;
    if sends > 0 {
      PumpedBytes(prefix, [prefix], results, 0, sends, stop);
    }
    hide Flat, BytesOf, Pumped;
  }

  // ---- An upload, end to end --------------------------------------------

  /** ServeHTTP reads the body up to one byte past the limit and streams it if it got there. */
  function Buffered(body: Bytes): (r: (Bytes, bool))
    ensures r.0 <= body && (r.1 <==> |body| > INLINE_BODY_LIMIT) && (!r.1 ==> r.0 == body)
    ensures r.1 ==> |r.0| == INLINE_BODY_LIMIT + 1
  {
    var n := if |body| > INLINE_BODY_LIMIT then INLINE_BODY_LIMIT + 1 else |body|;
    (body[..n], n > INLINE_BODY_LIMIT)
  }

  /** A body above the limit, cut into any reads, pumped by a pump that is not cut short and read
      back with any buffers, is reproduced exactly. */
  method UploadReproduced(body: Bytes, results: seq<ReadResult>, sends: nat, stop: nat, sizes: seq<nat>)
    returns (frames: seq<Msg>)
    requires Buffered(body).1 && EndsOnce(results) && Buffered(body).0 + BytesOf(results) == body
    requires sends > |results| && stop >= |results| && AllPositive(sizes) && |sizes| >= |body|
    ensures ClosedBy(frames) && ReadAll(sizes, [], Datas(frames)) == body
  {
    frames := PumpRequestBody(Buffered(body).0, results, sends, stop);
    var chunks := Datas(frames);
    assert [] + Flat(chunks) == Flat(chunks);
    EnoughReads(sizes, [], chunks);
  }
}
