/**
 The tables behind the stream frames, updated in place: the client's relays, body streams
 and response cancels, and the server's pending requests.
 */
module StreamTables {
  import opened Basics
  import opened Link
  import opened Tables
  import BodyReader
  import HttpCodec
  import HttpWire

  // ---- Client -----------------------------------------------------------

  /** A relay: its local connection, of which we keep the bytes written, and its done signal. */
  class StreamRelay {
    var done: bool
    var written: Bytes

    constructor ()
      ensures !done && written == []
    {
      done, written := false, [];
    }

    /** closeDone, through a sync.Once. */
    method CloseDone()
      modifies this
      ensures done && written == old(written)
    {
      done := true;
    }
  }

  class Cancel {
    var closed: bool

    constructor ()
      ensures !closed
    {
      closed := false;
    }

    /** Closing a channel that is closed panics. */
    method Close()
      requires !closed
      modifies this
      ensures closed
    {
      closed := true;
    }
  }

  method CloseBody(bs: BodyReader.BodyStream)
    requires !bs.closed
    modifies bs`closed
    ensures bs.closed
  {
    bs.closed := true;
  }

  class Tunnel {
    var relays: map<Id, StreamRelay>
    var bodyStreams: map<Id, BodyReader.BodyStream>
    var respCancels: map<Id, Cancel>

    /** A listed channel is open, and entries do not share their channels. */
    ghost predicate Valid()
      reads this, bodyStreams.Values, respCancels.Values
    {
      && (forall i :: i in bodyStreams ==> !bodyStreams[i].closed && |bodyStreams[i].queue| <= STREAM_RELAY_BUF)
      && (forall i :: i in respCancels ==> !respCancels[i].closed)
      && (forall i, j :: i in relays && j in relays && i != j ==> relays[i] != relays[j])
      && (forall i, j :: i in bodyStreams && j in bodyStreams && i != j ==> bodyStreams[i] != bodyStreams[j])
      && (forall i, j :: i in respCancels && j in respCancels && i != j ==> respCancels[i] != respCancels[j])
    }

    /** The tables as the multiplexer sees them. */
    ghost function View(): Tables
      reads this
    {
      Tables(relays.Keys, bodyStreams.Keys, respCancels.Keys)
    }

    constructor ()
      ensures Valid() && View() == NO_TABLES
    {
      relays, bodyStreams, respCancels := map[], map[], map[];
    }

    /** handleTCPOpen and handleWebSocketReq list a new relay, whatever else the ID is for. */
    method ListRelay(id: Id) returns (relay: StreamRelay)
      requires Valid()
      modifies this
      ensures Valid() && fresh(relay) && !relay.done && relay.written == []
      ensures relays == old(relays)[id := relay] && View() == old(View()).Apply(id, AddRelay)
      ensures bodyStreams == old(bodyStreams) && respCancels == old(respCancels)
    {
      relay := new StreamRelay();
      relays := relays[id := relay];
    }

    /** handleNormalHTTPReq lists a new body stream. */
    method ListBody(id: Id) returns (bs: BodyReader.BodyStream)
      requires Valid()
      modifies this
      ensures Valid() && fresh(bs) && bs.queue == [] && !bs.aborted
      ensures bodyStreams == old(bodyStreams)[id := bs] && View() == old(View()).Apply(id, AddBody)
      ensures relays == old(relays) && respCancels == old(respCancels)
    {
      bs := new BodyReader.BodyStream();
      bodyStreams := bodyStreams[id := bs];
    }

    /** streamResponseBody lists a new cancel signal. */
    method ListCancel(id: Id) returns (c: Cancel)
      requires Valid()
      modifies this
      ensures Valid() && fresh(c)
      ensures respCancels == old(respCancels)[id := c] && View() == old(View()).Apply(id, AddCancel)
      ensures relays == old(relays) && bodyStreams == old(bodyStreams)
    {
      c := new Cancel();
      respCancels := respCancels[id := c];
    }

    /** A data frame goes to the relay of its ID if there is one, else to the body stream, else
        nowhere. `n` bytes are written before a write error, all of them without one. A queue
        that stays full ends the stream. */
    method HandleStreamData(id: Id, payload: Bytes, n: nat)
      requires Valid() && n <= |payload|
      modifies this`bodyStreams, if id in relays then {relays[id]} else {},
               if id in bodyStreams then {bodyStreams[id]} else {}
      ensures Valid()
      ensures id in old(relays) && old(relays[id].done) ==> unchanged(relays[id])
      ensures id in old(relays) && !old(relays[id].done) ==>
                && relays[id].written == old(relays[id].written) + payload[..n]
                && relays[id].done == (n < |payload|)
      ensures id !in old(relays) && id in old(bodyStreams) ==>
                var bs := old(bodyStreams[id]);
                if |old(bs.queue)| == STREAM_RELAY_BUF then
                  bodyStreams == old(bodyStreams) - {id} && bs.closed && bs.aborted && bs.queue == old(bs.queue)
                else
                  && bodyStreams == old(bodyStreams)
                  && bs.queue == old(bs.queue) + [payload] && bs.aborted == old(bs.aborted)
      ensures id in old(relays) || id !in old(bodyStreams) ==>
                bodyStreams == old(bodyStreams) && (id in bodyStreams ==> unchanged(bodyStreams[id]))
      ensures View() == old(View()) || View() == old(View()).Apply(id, DropBody)
    {
      if id in relays {
        var relay := relays[id];
        if relay.done {
          return;
        }
        relay.written := relay.written + payload[..n];
        if n < |payload| {
          relay.CloseDone();
        }
        return;
      }
      if id !in bodyStreams {
        return;
      }
      var bs := bodyStreams[id];
      if |bs.queue| < STREAM_RELAY_BUF {
        bs.queue := bs.queue + [payload];
      } else {
        bodyStreams := bodyStreams - {id};
        bs.aborted := true;
        CloseBody(bs);
      }
    }

    /** A close frame acts on at most one entry: the relay, else the body stream, else the
        cancel signal of its ID. No channel is closed twice. */
    method HandleStreamClose(id: Id)
      requires Valid()
      modifies this, if id in relays then {relays[id]} else {}, if id in bodyStreams then {bodyStreams[id]} else {},
               if id in respCancels then {respCancels[id]} else {}
      ensures Valid() && View() == old(View()).Apply(id, CloseFrame)
      ensures if id in old(relays)
              then relays == old(relays) - {id} && old(relays[id]).done
                   && old(relays[id]).written == old(relays[id].written)
              else relays == old(relays)
      ensures if id in old(bodyStreams) && id !in old(relays)
              then bodyStreams == old(bodyStreams) - {id} && old(bodyStreams[id]).closed
                   && old(bodyStreams[id]).aborted == old(bodyStreams[id].aborted)
                   && old(bodyStreams[id]).queue == old(bodyStreams[id].queue)
              else bodyStreams == old(bodyStreams) && (id in bodyStreams ==> unchanged(bodyStreams[id]))
      ensures if id in old(respCancels) && id !in old(relays) && id !in old(bodyStreams)
              then respCancels == old(respCancels) - {id} && old(respCancels[id]).closed
              else respCancels == old(respCancels) && (id in respCancels ==> unchanged(respCancels[id]))
    {
      if id in relays {
        var relay := relays[id];
        relays := relays - {id};
        relay.CloseDone();
        return;
      }
      if id in bodyStreams {
        var bs := bodyStreams[id];
        bodyStreams := bodyStreams - {id};
        CloseBody(bs);
        return;
      }
      if id in respCancels {
        var cancel := respCancels[id];
        respCancels := respCancels - {id};
        cancel.Close();
      }
    }

    /** The deferred deletions at the end of a relay, an upload and a response. */
    method DelistRelay(id: Id)
      requires Valid()
      modifies this
      ensures Valid() && relays == old(relays) - {id} && View() == old(View()).Apply(id, DropRelay)
      ensures bodyStreams == old(bodyStreams) && respCancels == old(respCancels)
    {
      relays := relays - {id};
    }

    method DelistBody(id: Id)
      requires Valid()
      modifies this
      ensures Valid() && bodyStreams == old(bodyStreams) - {id} && View() == old(View()).Apply(id, DropBody)
      ensures relays == old(relays) && respCancels == old(respCancels)
    {
      bodyStreams := bodyStreams - {id};
    }

    method DelistCancel(id: Id)
      requires Valid()
      modifies this
      ensures Valid() && respCancels == old(respCancels) - {id} && View() == old(View()).Apply(id, DropCancel)
      ensures relays == old(relays) && bodyStreams == old(bodyStreams)
    {
      respCancels := respCancels - {id};
    }
  }

  // ---- Server -----------------------------------------------------------

  /** pendingReq: the response channel holds one, streamData up to its capacity. Which of the
      channels exist depends on what the request is for. `processed`, `taken` and `refused` are
      history. */
  class PendingReq {
    const hasResponse: bool
    const hasReady: bool
    var response: Option<HttpCodec.HTTPResponse>
    var queue: seq<Bytes>
    var closed: bool
    var done: bool
    var ready: bool
    ghost var processed: seq<Bytes>
    ghost var taken: seq<Bytes>
    ghost var refused: seq<Bytes>

    constructor (hasResponse: bool, hasReady: bool)
      ensures this.hasResponse == hasResponse && this.hasReady == hasReady && response == None && !ready
      ensures View(true) == Enlist(EMPTY_INBOX)
    {
      this.hasResponse, this.hasReady := hasResponse, hasReady;
      response, queue, closed, done, ready := None, [], false, false, false;
      processed, taken, refused := [], [], [];
    }

    /** The entry as the stream machines see it. */
    ghost function View(listed: bool): Inbox
      reads this
    {
      Inbox(true, listed, queue, closed, done, None, processed, taken, refused)
    }

    /** The response waiting to be taken and the ready signal. */
    predicate Kept(response: Option<HttpCodec.HTTPResponse>, ready: bool)
      reads this
    {
      this.response == response && this.ready == ready
    }

    method CloseReady()
      modifies this`ready
      ensures ready == (old(ready) || hasReady)
    {
      if hasReady {
        ready := true;
      }
    }

    /** The consumer receives a chunk. */
    method Receive() returns (b: Bytes)
      requires queue != []
      modifies this`queue, this`taken
      ensures forall listed :: View(listed) == Take(old(View(listed))) && b == old(queue[0])
    {
      b := queue[0];
      queue, taken := queue[1..], taken + [b];
    }
  }

  class Pending {
    var pending: map<Id, PendingReq>

    ghost predicate Valid()
      reads this, pending.Values
    {
      && (forall i :: i in pending ==> pending[i].View(true).Valid())
      && (forall i, j :: i in pending && j in pending && i != j ==> pending[i] != pending[j])
    }

    constructor ()
      ensures Valid() && pending == map[]
    {
      pending := map[];
    }

    /** startForward and relayPublicConn list a new entry before they send anything. */
    method Add(id: Id, hasResponse: bool, hasReady: bool) returns (pr: PendingReq)
      requires Valid() && id !in pending
      modifies this
      ensures Valid() && fresh(pr) && pending == old(pending)[id := pr] && pr.View(true) == Enlist(EMPTY_INBOX)
      ensures pr.hasResponse == hasResponse && pr.hasReady == hasReady && pr.Kept(None, false)
    {
      pr := new PendingReq(hasResponse, hasReady);
      pending := pending[id := pr];
    }

    method RemovePending(id: Id)
      requires Valid()
      modifies this
      ensures Valid() && pending == old(pending) - {id}
    {
      pending := pending - {id};
    }

    method HandleTCPReady(id: Id)
      requires Valid()
      modifies if id in pending then {pending[id]} else {}
      ensures Valid()
      ensures id in pending ==>
                && pending[id].View(true) == old(pending[id].View(true))
                && pending[id].response == old(pending[id].response)
                && pending[id].ready == (old(pending[id].ready) || pending[id].hasReady)
    {
      if id in pending {
        pending[id].CloseReady();
      }
    }

    /** A response the decoder rejects is dropped; of the others the first is kept. The entry
        stays listed for the body that may follow. */
    method HandleHTTPRes(id: Id, payload: Bytes)
      requires Valid()
      modifies if id in pending then {pending[id]} else {}
      ensures Valid()
      ensures id in pending ==>
                && pending[id].View(true) == old(pending[id].View(true)) && pending[id].ready == old(pending[id].ready)
                && pending[id].response ==
                     match HttpCodec.ParseResponse(payload)
                     case Bad => old(pending[id].response)
                     case Got(resp, _) =>
                       if pending[id].hasResponse && old(pending[id].response).None? then Some(resp)
                       else old(pending[id].response)
    {
      var resp := HttpWire.DecodeHTTPResponse(payload);
      if resp.Some? && id in pending && pending[id].hasResponse && pending[id].response.None? {
        pending[id].response := resp;
      }
    }

    /** A payload for a listed ID is queued, or the stream is stalled: unlisted and closed. For
        any other ID it is dropped. */
    method HandleStreamData(id: Id, payload: Bytes) returns (sendClose: bool)
      requires Valid()
      modifies this, if id in pending then {pending[id]} else {}
      ensures Valid()
      ensures id !in old(pending) ==> pending == old(pending) && !sendClose
      ensures id in old(pending) ==>
                var pr, b := old(pending[id]), Lookup(old(pending[id].View(true)), payload);
                if sendClose then
                  |b.queue| == STREAM_RELAY_BUF && pr.View(false) == Stall(b) && pending == old(pending) - {id}
                else |b.queue| < STREAM_RELAY_BUF && pr.View(true) == Enqueue(b) && pending == old(pending)
      ensures id in old(pending) ==> old(pending[id]).Kept(old(pending[id].response), old(pending[id].ready))
    {
      if id !in pending {
        return false;
      }
      var pr := pending[id];
      pr.processed := pr.processed + [payload];
      if |pr.queue| < STREAM_RELAY_BUF {
        pr.queue := pr.queue + [payload];
        return false;
      }
      pending := pending - {id};
      pr.closed := true;
      pr.refused := pr.refused + [payload];
      return true;
    }

    method HandleStreamClose(id: Id)
      requires Valid()
      modifies this, if id in pending then {pending[id]} else {}
      ensures Valid() && pending == old(pending) - {id}
      ensures id in old(pending) ==>
                var pr := old(pending[id]);
                && pr.View(false) == PeerClose(old(pending[id].View(true)))
                && pr.Kept(old(pending[id].response), old(pending[id].ready) || pr.hasReady)
    {
      if id !in pending {
        return;
      }
      var pr := pending[id];
      pending := pending - {id};
      pr.CloseReady();
      pr.closed := true;
    }
  }

  /** What awaitResponse finds: of a response, any chunks of its body and a close, handled in this
      order, nothing disturbs the response, and the chunks that fit the queue wait behind it. */
  method ReceiveResponse(p: Pending, id: Id, payload: Bytes, chunks: seq<Bytes>) returns (pr: PendingReq)
    requires p.Valid() && id in p.pending
    requires p.pending[id].hasResponse && p.pending[id].response.None? && p.pending[id].queue == []
    requires HttpCodec.ParseResponse(payload).Got? && |chunks| <= 256
    modifies p, p.pending[id]
    ensures p.Valid() && p.pending == old(p.pending) - {id} && pr == old(p.pending[id])
    ensures pr.response == Some(HttpCodec.ParseResponse(payload).value) && pr.queue == chunks && pr.closed
  {
    pr := p.pending[id];
    p.HandleHTTPRes(id, payload);
    for i := 0 to |chunks|
      invariant p.Valid() && p.pending == old(p.pending) && pr.queue == chunks[..i]
      invariant pr.response == Some(HttpCodec.ParseResponse(payload).value)
    {
      var full := p.HandleStreamData(id, chunks[i]);
      assert chunks[..i + 1] == chunks[..i] + [chunks[i]];
    }
    p.HandleStreamClose(id);
  }
}
