/**
 The two ordered links between server and client, the frames that concern one stream, and
 the server's side of a stream: a pending entry with its channel.

 `down` carries frames from server to client, `up` from client to server. A step takes at
 most one frame from the head of a link and appends any number at the tails.
 */
module Link {
  import opened Basics

  const STREAM_RELAY_BUF := 256
  const STREAM_BUF_SIZE := 32768
  const INLINE_BODY_LIMIT := 0x40_0000

  /** MsgHTTPRes: an inline body, the announcement of a streamed one, or a switch of protocols.
      `genuine` is history: the body is the local application's, not an error text of the
      client's own. */
  datatype Response = Inline(body: Bytes, genuine: bool) | Streamed | Switching

  /** A request says by its headers whether it asks for an upgrade. */
  datatype Msg = TCPOpen | Req(upgrade: bool) | Res(r: Response) | Data(b: Bytes) | Close

  datatype Recv = Nothing | FromDown(m: Msg) | FromUp(m: Msg)

  /** What a step leaves behind: its new state and the frames it appends. */
  datatype Out<+C> = Out(core: C, down: seq<Msg>, up: seq<Msg>)

  function Just<C>(c: C): Option<Out<C>> { Some(Out(c, [], [])) }

  /** The payload a frame loop is busy with, as bytes. */
  function InHand(hand: Option<Bytes>): Bytes { if hand.Some? then hand.value else [] }

  /** Where the bytes handled by the client's loop went: they were written, are being written,
      were left over by a failed write, or came while there was nothing live to write to. */
  ghost predicate Accounted(handled: Bytes, written: Bytes, hand: Option<Bytes>, torn: Bytes, missed: seq<Bytes>,
                            live: bool)
  {
    && written + InHand(hand) + torn + Flat(missed) == handled
    && (hand.Some? || live ==> torn == [] && Flat(missed) == [])
  }

  lemma {:induction false} AccountLive(h: Bytes, w: Bytes, t: Bytes, m: seq<Bytes>, b: Bytes)
    requires Accounted(h, w, None, t, m, true)
    ensures Accounted(h + b, w, Some(b), t, m, true)
  {
    hide Flat;
  }

  lemma {:induction false} AccountMissed(h: Bytes, w: Bytes, t: Bytes, m: seq<Bytes>, b: Bytes)
    requires Accounted(h, w, None, t, m, false)
    ensures Accounted(h + b, w, None, t, m + [b], false)
  {
    FlatSnoc(m, b);
    assert w + InHand(None) + t + (Flat(m) + b) == w + InHand(None) + t + Flat(m) + b;
    hide Flat;
  }

  lemma {:induction false} AccountWritten(h: Bytes, w: Bytes, v: Bytes, t: Bytes, m: seq<Bytes>, n: nat, live: bool,
                                          ok: bool)
    requires Accounted(h, w, Some(v), t, m, live) && n <= |v| && (ok ==> n == |v|)
    ensures Accounted(h, w + v[..n], None, t + v[n..], m, live && ok)
  {
    assert v[..n] + v[n..] == v && [] + v[n..] == v[n..];
    hide Flat;
  }

  function Push(ok: bool, m: Msg): seq<Msg> { if ok then [m] else [] }

  /** The payloads of the data frames on a link. */
  function Datas(link: seq<Msg>): seq<Bytes> {
    if link == [] then []
    else (if link[0].Data? then [link[0].b] else []) + Datas(link[1..])
  }

  lemma {:induction false} DatasAppend(a: seq<Msg>, b: seq<Msg>)
    ensures Datas(a + b) == Datas(a) + Datas(b)
  {
    if a == [] {
      assert a + b == b;
    } else {
      assert (a + b)[1..] == a[1..] + b;
      DatasAppend(a[1..], b);
    }
  }

  lemma {:induction false} DatasPop(link: seq<Msg>)
    requires link != []
    ensures Datas(link) == if link[0].Data? then [link[0].b] + Datas(link[1..]) else Datas(link[1..])
  {
  }

  lemma {:induction false} DatasPush(link: seq<Msg>, ok: bool, m: Msg)
    ensures Datas(link + Push(ok, m)) == if ok && m.Data? then Datas(link) + [m.b] else Datas(link)
  {
    DatasAppend(link, Push(ok, m));
    assert Push(ok, m) != [] ==> Push(ok, m)[1..] == [];
  }

  /** The step can take its frame from the head of the right link. */
  predicate Arrived(r: Recv, down: seq<Msg>, up: seq<Msg>) {
    match r
    case Nothing => true
    case FromDown(m) => down != [] && down[0] == m
    case FromUp(m) => up != [] && up[0] == m
  }

  /** A link after a step took its head, if `taken`, and appended `more`. */
  function After(link: seq<Msg>, taken: bool, more: seq<Msg>): seq<Msg>
    requires taken ==> link != []
  {
    var rest := if taken then link[1..] else link;
    if more == [] then rest else rest + more
  }

  // ---- A pending entry --------------------------------------------------

  /** pendingReq as the consumer and the frame loop see it. `made` says the entry was
      created, `listed` that its ID is still in the pending table; `hand` is the payload the frame
      loop has looked the entry up for and is trying to send. `processed`, `taken` and `refused`,
      the payloads that were given up, are histories. */
  datatype Inbox = Inbox(
    made: bool, listed: bool, queue: seq<Bytes>, closed: bool, done: bool, hand: Option<Bytes>,
    processed: seq<Bytes>, taken: seq<Bytes>, refused: seq<Bytes>)
  {
    function Held(): seq<Bytes> {
      taken + queue + (if hand.Some? then [hand.value] else [])
    }

    /** Every payload processed was taken, waits, or was given up after all of those; nothing
        is given up while the ID is listed, and a listed ID has open channels. */
    ghost predicate Valid() {
      && (listed ==> made && !closed && !done)
      && Held() + refused == processed
      && (listed || hand.Some? ==> refused == [])
      && |queue| <= STREAM_RELAY_BUF
    }
  }

  lemma {:induction false} FlatOne(hand: Option<Bytes>)
    ensures Flat(if hand.Some? then [hand.value] else []) == InHand(hand)
  {
    if hand.Some? {
      FlatHead([hand.value]);
    }
    FlatNone<byte>([]);
  }

  lemma {:induction false} InboxFlat(b: Inbox)
    requires b.Valid()
    ensures Flat(b.processed) == Flat(b.taken) + Flat(b.queue) + InHand(b.hand) + Flat(b.refused)
  {
    var h := if b.hand.Some? then [b.hand.value] else [];
    FlatAppend(b.Held(), b.refused);
    FlatAppend(b.taken + b.queue, h);
    FlatAppend(b.taken, b.queue);
    FlatOne(b.hand);
    hide Flat;
  }

  const EMPTY_INBOX := Inbox(false, false, [], false, false, None, [], [], [])

  /** pending[id] = pr. */
  function Enlist(b: Inbox): (r: Inbox)
    requires b == EMPTY_INBOX
    ensures r.Valid()
  {
    b.(made := true, listed := true)
  }

  /** handleStreamData finds the entry, or not. */
  function Lookup(b: Inbox, p: Bytes): (r: Inbox)
    requires b.hand.None?
    ensures b.Valid() ==> r.Valid()
  {
    assert b.Valid() && b.listed ==> b.taken + b.queue + [p] + b.refused == b.Held() + b.refused + [p];
    assert b.Held() + b.refused + [p] == b.Held() + (b.refused + [p]);
    b.(processed := b.processed + [p], hand := if b.listed then Some(p) else None,
       refused := if b.listed then b.refused else b.refused + [p])
  }

  /** pr.streamData <- payload. */
  function Enqueue(b: Inbox): (r: Inbox)
    requires b.hand.Some? && !b.closed && |b.queue| < STREAM_RELAY_BUF
    ensures b.Valid() ==> r.Valid()
  {
    assert b.taken + (b.queue + [b.hand.value]) == b.Held();
    b.(queue := b.queue + [b.hand.value], hand := None)
  }

  /** The payload is dropped: <-pr.done, or a send on a closed channel that is recovered. */
  function Drop(b: Inbox): (r: Inbox)
    requires b.hand.Some? && (b.done || b.closed)
    ensures b.Valid() ==> r.Valid()
  {
    assert b.taken + b.queue + [b.hand.value] == b.Held();
    b.(hand := None, refused := b.refused + [b.hand.value])
  }

  /** Send timeout: removePending and closeStream. */
  function Stall(b: Inbox): (r: Inbox)
    requires b.hand.Some?
    ensures b.Valid() ==> r.Valid()
  {
    assert b.taken + b.queue + [b.hand.value] == b.Held();
    b.(listed := false, closed := true, hand := None, refused := b.refused + [b.hand.value])
  }

  /** handleStreamClose. */
  function PeerClose(b: Inbox): (r: Inbox)
    requires b.hand.None?
    ensures b.Valid() ==> r.Valid()
  {
    if b.listed then b.(listed := false, closed := true) else b
  }

  /** removePending. */
  function Unlist(b: Inbox): (r: Inbox)
    ensures b.Valid() ==> r.Valid()
  {
    b.(listed := false)
  }

  /** closeDone, which the consumer calls after removePending. */
  function MarkDone(b: Inbox): (r: Inbox)
    requires !b.listed
    ensures b.Valid() ==> r.Valid()
  {
    b.(done := true)
  }

  /** The consumer receives a chunk. */
  function Take(b: Inbox): (r: Inbox)
    requires b.queue != []
    ensures b.Valid() ==> r.Valid()
    ensures r.taken == b.taken + [b.queue[0]]
  {
    assert b.taken + [b.queue[0]] + b.queue[1..] == b.taken + b.queue;
    b.(queue := b.queue[1..], taken := b.taken + [b.queue[0]])
  }

  /** The entry's part of cleanup. */
  function CleanUp(b: Inbox): (r: Inbox)
    ensures b.Valid() ==> r.Valid()
  {
    if b.listed then b.(listed := false, closed := true, done := true) else b
  }

  /** One step of the frame loop, the consumer or cleanup. */
  ghost predicate OneStep(b: Inbox, n: Inbox) {
    || (b == EMPTY_INBOX && n == Enlist(b))
    || (b.hand.None? && exists p :: n == Lookup(b, p))
    || (b.hand.Some? && !b.closed && |b.queue| < STREAM_RELAY_BUF && n == Enqueue(b))
    || (b.hand.Some? && (b.done || b.closed) && n == Drop(b))
    || (b.hand.Some? && n == Stall(b))
    || (b.hand.None? && n == PeerClose(b))
    || n == Unlist(b)
    || (!b.listed && n == MarkDone(b))
    || (b.queue != [] && n == Take(b))
    || n == CleanUp(b)
  }

  ghost predicate InboxRun(run: seq<Inbox>) {
    && run != [] && run[0] == EMPTY_INBOX
    && forall i {:trigger run[i]} :: 0 < i < |run| ==> OneStep(run[i - 1], run[i])
  }

  lemma {:induction false} InboxRunValid(run: seq<Inbox>, i: nat)
    requires InboxRun(run) && i < |run|
    ensures run[i].Valid()
  {
    if i == 0 {
    } else {
      InboxRunValid(run, i - 1);
    }
  }

  /** No gaps: in every run of the entry's steps the consumer has received a prefix of the
      payloads processed for the ID, and what follows it waits or was given up; a listed ID has
      open channels. */
  lemma {:induction false} NoGaps(run: seq<Inbox>, i: nat)
    requires InboxRun(run) && i < |run|
    ensures run[i].taken <= run[i].taken + run[i].queue <= run[i].processed
    ensures run[i].hand.None? ==> run[i].processed == run[i].taken + run[i].queue + run[i].refused
    ensures run[i].listed ==> run[i].refused == []
    ensures run[i].listed ==> !run[i].closed && !run[i].done
  {
    hide InboxRun;
    InboxRunValid(run, i);
  }

  /** Out of the table with nothing in hand. */
  ghost predicate Retired(b: Inbox, due: seq<Bytes>) {
    b.made && !b.listed && b.hand.None? && b.taken + b.queue == due
  }

  lemma {:induction false} RetiredStays(b: Inbox, n: Inbox, due: seq<Bytes>)
    requires Retired(b, due) && OneStep(b, n)
    ensures Retired(n, due)
  {
  }

  /** Once one chunk is dropped the ID is out of the table, and from then on no later payload
      is ever queued: what the consumer can still receive is what the queue already holds. */
  lemma {:induction false} NothingAfterUnlisting(run: seq<Inbox>, i: nat, j: nat, due: seq<Bytes>)
    requires InboxRun(run) && i <= j < |run| && Retired(run[i], due)
    ensures Retired(run[j], due)
  {
    if i == j {
    } else {
      NothingAfterUnlisting(run, i, j - 1, due);
      RetiredStays(run[j - 1], run[j], due);
    }
  }
}
