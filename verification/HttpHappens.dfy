/**
 Every exchange can be run to its end without a faulty step: an upload of any length, read whole,
 and then a response of any length, shown whole. So what is proved of finished exchanges is not
 proved of none.
 */
module HttpHappens {
  import opened Basics
  import opened Link
  import opened HttpExchange
  import opened HttpRuns

  const LISTED_INBOX := EMPTY_INBOX.(made := true, listed := true)

  // ---- The upload ---------------------------------------------------------

  /** The request is being made and nothing of the response exists. */
  predicate Asking(c: Http) {
    && c.s.phase == Await && c.s.inbox == LISTED_INBOX && c.s.resp.None?
    && c.k.phase == Doing && !c.k.cancel && c.k.cancelCloses == 0 && c.k.hand.None?
    && c.d == Reply([], false, false, [], [], None, None, [], [])
    && c.n.clean && !c.n.skipped && !c.n.cutShort && c.h.lost == 0
  }

  /** And the upload is under way, everything read of it having reached its reader. */
  predicate Uploading(c: Http) {
    && Asking(c) && c.s.pump == PumpLoop && c.h.streamed && !c.h.eof && !c.h.broke && c.k.body
    && c.u.made && c.u.queue == [] && c.u.rem == [] && c.u.closes == 0 && !c.u.aborted && c.u.end == Open
    && c.u.got == c.h.head + c.h.rest
  }

  /** A chunk in the queue is read. */
  lemma {:induction false} ReaderReads(c: Http, b: Bytes)
    requires Reached(St(c, [], []), {}) && c.u.made && c.u.queue == [b] && c.u.rem == []
    ensures Reached(St(c.(u := c.u.(queue := [], got := c.u.got + b)), [], []), {})
  {
    hide Reached, ServeEffect, LoopEffect, ReplyEffect;
    assert [b][1..] == [];
    var c1 := c.(u := c.u.(queue := [], rem := b));
    Silent(c, RTake, c1, [], [], {});
    assert b[..|b|] == b && b[|b|..] == [];
    Silent(c1, RCopy(|b|), c.(u := c.u.(queue := [], got := c.u.got + b)), [], [], {});
  }

  lemma {:induction false} HeadIsRead(head: Bytes) returns (n: Http)
    ensures Reached(St(n, [], []), {}) && Uploading(n) && n.h.head == head && n.h.rest == []
  {
    HeadArrives(head, {});
    hide Reached, Effect;
    ReaderReads(HeadQueued(head), head);
    assert [] + head == head && head + [] == head;
    var c := HeadQueued(head);
    n := c.(u := c.u.(queue := [], got := c.u.got + head));
  }

  lemma {:induction false} ChunkSent(c: Http, b: Bytes)
    requires Reached(St(c, [], []), {}) && c.s.pump == PumpLoop && !c.h.broke && !c.h.eof && 0 < |b| <= STREAM_BUF_SIZE
    ensures Reached(St(c.(h := c.h.(rest := c.h.rest + b, sent := c.h.sent + [b])), [Data(b)] + [], []), {})
  {
    hide Reached, ServeEffect, ClientEffect, ReplyEffect, Inbox.Valid;
    assert [] + [Data(b)] == [Data(b)] + [];
    SendsDown(c, PRead(b, true, false, false), c.(h := c.h.(rest := c.h.rest + b, sent := c.h.sent + [b])), Data(b),
              [], [], {});
  }

  lemma {:induction false} ChunkIsRead(c: Http, b: Bytes) returns (n: Http)
    requires Reached(St(c, [], []), {}) && Uploading(c) && 0 < |b| <= STREAM_BUF_SIZE
    ensures Reached(St(n, [], []), {}) && Uploading(n) && n.h.head == c.h.head && n.h.rest == c.h.rest + b
  {
    hide Reached, Effect;
    ChunkSent(c, b);
    var c1 := c.(h := c.h.(rest := c.h.rest + b, sent := c.h.sent + [b]));
    ChunkQueued(c1, b, [], {});
    var c2 := c1.(u := c1.u.(queue := [b]),
                  h := c1.h.(handled := c1.h.handled + [b], queued := c1.h.queued + [b]));
    ReaderReads(c2, b);
    assert c.h.head + c.h.rest + b == c.h.head + (c.h.rest + b);
    n := c2.(u := c2.u.(queue := [], got := c2.u.got + b));
  }

  lemma {:induction false} RestIsRead(c: Http, more: Bytes) returns (n: Http)
    requires Reached(St(c, [], []), {}) && Uploading(c)
    ensures Reached(St(n, [], []), {}) && Uploading(n) && n.h.head == c.h.head && n.h.rest == c.h.rest + more
    decreases |more|
  {
    hide Reached, Uploading;
    if more == [] {
      assert c.h.rest + more == c.h.rest;
      n := c;
    } else {
      var k := Min(|more|, STREAM_BUF_SIZE);
      n := ChunkIsRead(c, more[..k]);
      n := RestIsRead(n, more[k..]);
      assert c.h.rest + more[..k] + more[k..] == c.h.rest + more;
    }
  }

  /** The viewer's body ends, and its reader sees the end. */
  lemma {:induction false} EndIsRead(c: Http) returns (n: Http)
    requires Reached(St(c, [], []), {}) && Uploading(c)
    ensures Reached(St(n, [], []), {}) && Asking(n) && n.s.pump == PumpEnd && n.h == c.h.(eof := true)
    ensures n.u.end == Eof && n.u.got == c.u.got && !n.k.body
  {
    hide Reached, ServeEffect, LoopEffect, ReplyEffect;
    PumpEnds(c, false, [], {});
    var c1 := c.(s := c.s.(pump := PumpEnd), h := c.h.(eof := true));
    assert c1.h == c.h.(eof := true, broke := false);
    var c2 := c1.(k := c1.k.(body := false), u := c1.u.(closes := 1), n := c1.n.(closes := c1.n.closes + 1));
    TakesDown(c1, LClose, c2, Close, [], [], {});
    n := c2.(u := c2.u.(end := Eof));
    Silent(c2, REnd, n, [], [], {});
  }

  /** An upload of any length, registered in time, is read whole. */
  lemma {:induction false} UploadHappens(head: Bytes, rest: Bytes) returns (n: Http)
    ensures Reached(St(n, [], []), {}) && Asking(n) && n.s.pump == PumpEnd && n.h.streamed && !n.k.body
    ensures n.u.end == Eof && n.h.eof && n.u.got == n.h.head + n.h.rest == head + rest
  {
    hide Reached, Uploading, Asking;
    n := HeadIsRead(head);
    n := RestIsRead(n, rest);
    assert [] + rest == rest;
    AllRead(n);
    n := EndIsRead(n);
  }

  lemma {:induction false} AllRead(c: Http)
    requires Uploading(c)
    ensures c.u.got == c.h.head + c.h.rest && c.h.streamed
  {
  }

  // ---- The response -------------------------------------------------------

  /** An inline response that has arrived is shown whole by the next step of its handler, which
      touches nothing else and is then done with the viewer. */
  lemma {:induction false} InlineIsShown(c: Http, b: Bytes, genuine: bool)
    requires c.s.phase == Await && c.s.resp == Some(Inline(b, genuine))
    ensures var e := Effect(c, SGet(|b|, true));
            && e.Some? && e.value.down == [] && e.value.up == []
            && Over(e.value.core.s.phase) && e.value.core.d.viewer == b && e.value.core.d.torn == []
            && e.value.core.k == c.k && e.value.core.u == c.u && e.value.core.s.inbox == c.s.inbox
  {
    assert b[..|b|] == b && b[|b|..] == [];
  }

  /** The response has been shown, and both sides are on their way out. */
  predicate Shown(c: Http, body: Bytes) {
    && c.s.phase == Leaving && c.s.inbox.hand.None? && c.k.phase == Leave && !c.k.cancel && c.k.hand.None?
    && c.d.eof && c.d.viewer == c.d.body == body
  }

  lemma {:induction false} InlineHappens(c: Http, b: Bytes) returns (n: Http)
    requires Reached(St(c, [], []), {}) && Asking(c) && |b| <= INLINE_BODY_LIMIT
    ensures Reached(St(n, [], []), {}) && Shown(n, b) && n.u == c.u && n.h == c.h && n.s.pump == c.s.pump
    ensures n.k.body == c.k.body && n.d.seen == Some(Inline(b, true))
  {
    hide Reached, ClientEffect;
    var r := Inline(b, true);
    var c1 := c.(k := c.k.(phase := Leave), d := c.d.(body := b, eof := true, res := Some(r)));
    SendsUp(c, KInline(b, true, None), c1, Res(r), [], [], {});
    assert [] + [Res(r)] == [Res(r)] + [];
    var c2 := c1.(s := c1.s.(resp := Some(r)));
    TakesUp(c1, FRes(r, true), c2, Res(r), [], [], {});
    assert b[..|b|] == b && b[|b|..] == [];
    n := c2.(s := c2.s.(phase := Leaving), d := c2.d.(seen := Some(r), viewer := b));
    Silent(c2, SGet(|b|, true), n, [], [], {});
  }

  /** A streamed response is under way, everything read of it having been shown. */
  predicate Streams(c: Http) {
    && c.k.phase == Pumping && c.k.hand.None? && c.k.cancelCloses == 0 && !c.k.body
    && c.s.phase == Relaying && c.s.inbox.listed && !c.s.inbox.closed && !c.s.inbox.done
    && c.s.inbox.hand.None? && c.s.inbox.queue == [] && c.s.inbox.refused == []
    && c.d.seen == Some(Streamed) && !c.d.eof && !c.d.broke && c.d.torn == [] && c.d.viewer == c.d.body && c.n.clean
  }

  /** A chunk on the link reaches the viewer. */
  lemma {:induction false} ChunkIsShown(c: Http, b: Bytes)
    requires Reached(St(c, [], [Data(b)] + []), {}) && c.s.phase == Relaying && c.s.inbox.listed && !c.s.inbox.closed
    requires c.s.inbox.hand.None? && c.s.inbox.queue == [] && c.d.torn == [] && c.n.clean
    ensures var i := c.s.inbox;
            Reached(St(c.(s := c.s.(inbox := i.(processed := i.processed + [b], taken := i.taken + [b])),
                          d := c.d.(viewer := c.d.viewer + b)), [], []), {})
  {
    hide Reached, ClientEffect, ReplyEffect;
    var i := c.s.inbox;
    var c1 := c.(s := c.s.(inbox := i.(processed := i.processed + [b], hand := Some(b))));
    TakesUp(c, FData(b), c1, Data(b), [], [], {});
    assert i.queue + [b] == [b];
    var c2 := c.(s := c.s.(inbox := i.(processed := i.processed + [b], queue := [b])));
    Silent(c1, FEnqueue, c2, [], [], {});
    assert [b][1..] == [] && b[..|b|] == b && [] + b[|b|..] == [];
    Silent(c2, STake(|b|, true), c.(s := c.s.(inbox := i.(processed := i.processed + [b], taken := i.taken + [b])),
                                    d := c.d.(viewer := c.d.viewer + b)), [], [], {});
  }

  /** The header of a body above the inline limit is sent... */
  lemma {:induction false} HeaderIsSent(c: Http, first: Bytes) returns (n: Http)
    requires Reached(St(c, [], []), {}) && Asking(c) && |first| == INLINE_BODY_LIMIT + 1
    ensures Reached(St(n, [], [Res(Streamed)] + []), {})
    ensures n == c.(k := c.k.(phase := First, cancel := true),
                    d := c.d.(body := first, unsent := first, res := Some(Streamed)))
  {
    hide Reached, ServeEffect, LoopEffect, ClientEffect;
    var c1 := c.(k := c.k.(phase := Slot), d := c.d.(body := first, unsent := first));
    Silent(c, KBig(first), c1, [], [], {});
    var c2 := c1.(k := c1.k.(phase := Header, cancel := true));
    Silent(c1, KListCancel, c2, [], [], {});
    n := c2.(k := c2.k.(phase := First), d := c2.d.(res := Some(Streamed)));
    assert [] + [Res(Streamed)] == [Res(Streamed)] + [];
    SendsUp(c2, KHeader(true, None), n, Res(Streamed), [], [], {});
  }

  /** ... and heard... */
  lemma {:induction false} HeaderIsHeard(c: Http)
    requires Reached(St(c, [], [Res(Streamed)] + []), {}) && c.s.phase == Await && c.s.resp.None?
    requires c.s.inbox == LISTED_INBOX
    ensures Reached(St(c.(s := c.s.(resp := Some(Streamed), phase := Relaying), d := c.d.(seen := Some(Streamed))),
                       [], []), {})
  {
    hide Reached, ClientEffect, ReplyEffect;
    var c1 := c.(s := c.s.(resp := Some(Streamed)));
    TakesUp(c, FRes(Streamed, true), c1, Res(Streamed), [], [], {});
    Silent(c1, SGet(0, true), c1.(s := c1.s.(phase := Relaying), d := c1.d.(seen := Some(Streamed))), [], [], {});
  }

  lemma {:induction false} FirstIsSent(c: Http, first: Bytes)
    requires Reached(St(c, [], []), {}) && c.k.phase == First && c.k.cancelCloses == 0
    requires c.d.body == first && c.d.sent == []
    ensures Reached(St(c.(k := c.k.(phase := Pumping), d := c.d.(sent := [first], unsent := [])),
                       [], [Data(first)] + []), {})
  {
    hide Reached, ServeEffect, LoopEffect, ClientEffect;
    assert c.d.sent + [first] == [first] && [] + [Data(first)] == [Data(first)] + [];
    SendsUp(c, KFirst(true), c.(k := c.k.(phase := Pumping), d := c.d.(sent := [first], unsent := [])), Data(first),
            [], [], {});
  }

  /** ... and then its first part. */
  lemma {:induction false} FirstIsShown(c: Http, first: Bytes) returns (n: Http)
    requires Reached(St(c, [], []), {}) && Asking(c) && !c.k.body && |first| == INLINE_BODY_LIMIT + 1
    ensures Reached(St(n, [], []), {}) && Streams(n) && n.d.body == first
    ensures n.u == c.u && n.h == c.h && n.s.pump == c.s.pump
  {
    var c1 := HeaderIsSent(c, first);
    HeaderIsHeard(c1);
    hide Reached, Effect;
    var c2 := c1.(s := c1.s.(resp := Some(Streamed), phase := Relaying), d := c1.d.(seen := Some(Streamed)));
    FirstIsSent(c2, first);
    var c3 := c2.(k := c2.k.(phase := Pumping), d := c2.d.(sent := [first], unsent := []));
    ChunkIsShown(c3, first);
    assert [] + first == first;
    var i := c3.s.inbox;
    n := c3.(s := c3.s.(inbox := i.(processed := i.processed + [first], taken := i.taken + [first])),
             d := c3.d.(viewer := c3.d.viewer + first));
  }

  lemma {:induction false} NextIsShown(c: Http, b: Bytes) returns (n: Http)
    requires Reached(St(c, [], []), {}) && Streams(c) && 0 < |b| <= STREAM_BUF_SIZE
    ensures Reached(St(n, [], []), {}) && Streams(n) && n.d.body == c.d.body + b
    ensures n.u == c.u && n.h == c.h && n.s.pump == c.s.pump
  {
    hide Reached, ServeEffect, LoopEffect, ClientEffect;
    var c1 := c.(d := c.d.(body := c.d.body + b, sent := c.d.sent + [b]));
    assert [] + [Data(b)] == [Data(b)] + [];
    SendsUp(c, KRead(b, true, false, false), c1, Data(b), [], [], {});
    ChunkIsShown(c1, b);
    var i := c1.s.inbox;
    n := c1.(s := c1.s.(inbox := i.(processed := i.processed + [b], taken := i.taken + [b])),
             d := c1.d.(viewer := c1.d.viewer + b));
  }

  lemma {:induction false} AllIsShown(c: Http, more: Bytes) returns (n: Http)
    requires Reached(St(c, [], []), {}) && Streams(c)
    ensures Reached(St(n, [], []), {}) && Streams(n) && n.d.body == c.d.body + more
    ensures n.u == c.u && n.h == c.h && n.s.pump == c.s.pump
    decreases |more|
  {
    hide Reached, Streams;
    if more == [] {
      assert c.d.body + more == c.d.body;
      n := c;
    } else {
      var k := Min(|more|, STREAM_BUF_SIZE);
      n := NextIsShown(c, more[..k]);
      n := AllIsShown(n, more[k..]);
      assert c.d.body + more[..k] + more[k..] == c.d.body + more;
    }
  }

  /** The body ends; the client closes and takes its cancel signal off. */
  lemma {:induction false} ResponseCloses(c: Http) returns (n: Http)
    requires Reached(St(c, [], []), {}) && Streams(c)
    ensures Reached(St(n, [], [Close] + []), {})
    ensures n == c.(k := c.k.(phase := Leave, cancel := false), d := c.d.(eof := true))
  {
    hide Reached, ServeEffect, LoopEffect, ClientEffect;
    var c1 := c.(k := c.k.(phase := Stop), d := c.d.(eof := true));
    Silent(c, KRead([], true, true, false), c1, [], [], {});
    assert [] + [Close] == [Close] + [];
    var c2 := c1.(k := c1.k.(phase := Uncancel));
    SendsUp(c1, KSendClose(true), c2, Close, [], [], {});
    n := c2.(k := c2.k.(phase := Leave, cancel := false));
    Silent(c2, KUnlistCancel, n, [], [Close] + [], {});
  }

  lemma {:induction false} EndIsHeard(c: Http)
    requires Reached(St(c, [], [Close] + []), {}) && c.s.phase == Relaying && c.s.inbox.listed && c.n.clean
    requires c.s.inbox.hand.None? && c.s.inbox.queue == []
    ensures Reached(St(c.(s := c.s.(phase := Leaving, inbox := c.s.inbox.(listed := false, closed := true))),
                       [Close] + [], []), {})
  {
    hide Reached, ReplyEffect, ClientEffect;
    var c1 := c.(s := c.s.(inbox := c.s.inbox.(listed := false, closed := true)));
    TakesUp(c, FClose, c1, Close, [], [], {});
    var c2 := c1.(s := c1.s.(phase := Last));
    Silent(c1, SEof, c2, [], [], {});
    assert [] + [Close] == [Close] + [];
    SendsDown(c2, SClose(true), c2.(s := c2.s.(phase := Leaving)), Close, [], [], {});
  }

  lemma {:induction false} LastCloseIsHeard(c: Http)
    requires Reached(St(c, [Close] + [], []), {}) && c.k.hand.None? && !c.k.body && !c.k.cancel
    ensures Reached(St(c.(n := c.n.(closes := c.n.closes + 1)), [], []), {})
  {
    hide Reached, ServeEffect, LoopEffect, ReplyEffect;
    TakesDown(c, LClose, c.(n := c.n.(closes := c.n.closes + 1)), Close, [], [], {});
  }

  /** The server sees the end and answers with a close of its own. */
  lemma {:induction false} ResponseEnds(c: Http) returns (n: Http)
    requires Reached(St(c, [], []), {}) && Streams(c)
    ensures Reached(St(n, [], []), {}) && Shown(n, c.d.body) && n.u == c.u && n.h == c.h && n.s.pump == c.s.pump
    ensures n.d.seen == Some(Streamed)
  {
    var c1 := ResponseCloses(c);
    hide Reached, Effect;
    EndIsHeard(c1);
    var c2 := c1.(s := c1.s.(phase := Leaving, inbox := c1.s.inbox.(listed := false, closed := true)));
    n := c2.(n := c2.n.(closes := c2.n.closes + 1));
    LastCloseIsHeard(c2);
  }

  /** A response of any length is shown whole. */
  lemma {:induction false} ResponseHappens(c: Http, body: Bytes) returns (n: Http)
    requires Reached(St(c, [], []), {}) && Asking(c) && !c.k.body
    ensures Reached(St(n, [], []), {}) && Shown(n, body) && n.u == c.u && n.h == c.h && n.s.pump == c.s.pump
    ensures n.d.seen == Some(if |body| <= 4 * 1024 * 1024 then Inline(body, true) else Streamed)
  {
    hide Reached, Asking, Shown, Streams;
    if |body| <= INLINE_BODY_LIMIT {
      n := InlineHappens(c, body);
    } else {
      var k := INLINE_BODY_LIMIT + 1;
      n := FirstIsShown(c, body[..k]);
      n := AllIsShown(n, body[k..]);
      assert body[..k] + body[k..] == body;
      n := ResponseEnds(n);
    }
  }

  // ---- A whole exchange -----------------------------------------------------

  /** Neither side has anything left to do, and the ID is in no table. */
  predicate AllDone(c: Http) {
    && c.s.phase == Gone && c.k.phase == Ended && !c.s.inbox.listed && !c.k.body && !c.k.cancel
    && c.s.inbox.hand.None? && c.k.hand.None?
  }

  lemma {:induction false} AllShown(c: Http, body: Bytes)
    requires Shown(c, body)
    ensures c.d.eof && c.d.viewer == c.d.body == body
  {
  }

  lemma {:induction false} BothLeave(c: Http, body: Bytes) returns (n: Http)
    requires Reached(St(c, [], []), {}) && Shown(c, body)
    ensures Reached(St(n, [], []), {}) && AllDone(n) && n.u == c.u && n.h == c.h && n.s.pump == c.s.pump && n.d == c.d
  {
    hide Reached, LoopEffect, ClientEffect;
    var c1 := c.(k := c.k.(phase := Ended, body := false));
    Silent(c, KUnlistBody, c1, [], [], {});
    var c2 := c1.(s := c1.s.(phase := Unlisted, inbox := c1.s.inbox.(listed := false)));
    Silent(c1, SUnlist, c2, [], [], {});
    n := c2.(s := c2.s.(phase := Gone, inbox := c2.s.inbox.(done := true)));
    Silent(c2, SDone, n, [], [], {});
  }

  /** Any upload and any response, one after the other: a run without a faulty step to the end of
      both sides, with both links empty, in which the local application has read the whole upload
      and the viewer has the whole response. */
  lemma {:induction false} ExchangeHappens(streamed: bool, head: Bytes, rest: Bytes, body: Bytes)
    returns (c: Http)
    requires !streamed ==> head + rest == []
    ensures Reached(St(c, [], []), {}) && AllDone(c) && c.h.streamed == streamed
    ensures c.u.got == c.h.head + c.h.rest == head + rest && (streamed ==> c.u.end == Eof && c.h.eof)
    ensures c.d.viewer == c.d.body == body && c.d.eof
    ensures c.d.seen == Some(if |body| <= 4 * 1024 * 1024 then Inline(body, true) else Streamed)
  {
    c := Asked();
    if streamed {
      c := UploadHappens(head, rest);
    } else {
      Asks({});
      assert c.h.head + c.h.rest == head + rest == [];
    }
    hide Reached, Asking, Shown, AllDone;
    c := ResponseHappens(c, body);
    assert c.d.eof && c.d.viewer == c.d.body == body by {
      AllShown(c, body);
    }
    c := BothLeave(c, body);
  }

  // ---- An answer before the upload's end ------------------------------------

  /** The server is done; its pump reads no more and closes the upload. */
  lemma {:induction false} PumpStops(c: Http) returns (n: Http)
    requires Reached(St(c, [], []), {}) && c.s.phase == Leaving && c.s.pump == PumpLoop
    ensures Reached(St(n, [Close] + [], []), {}) && n.s.phase == Gone
    ensures n.k == c.k && n.u == c.u && n.h == c.h && n.d == c.d
  {
    hide Reached, ClientEffect, ReplyEffect;
    var c1 := c.(s := c.s.(phase := Unlisted, inbox := c.s.inbox.(listed := false)));
    Silent(c, SUnlist, c1, [], [], {});
    var c2 := c1.(s := c1.s.(phase := Gone, inbox := c1.s.inbox.(done := true)));
    Silent(c1, SDone, c2, [], [], {});
    var c3 := c2.(s := c2.s.(pump := PumpClose));
    Silent(c2, PStop, c3, [], [], {});
    n := c3.(s := c3.s.(pump := PumpEnd));
    assert [] + [Close] == [Close] + [];
    SendsDown(c3, PSendClose(true), n, Close, [], [], {});
  }

  /** No step is faulty, and the viewer's body has not ended; but the local application answered
      first, and what it has read so far looks like all of it. */
  lemma {:induction false} EarlyAnswerCutsUpload(head: Bytes, rest: Bytes, b: Bytes) returns (c: Http)
    requires |b| <= INLINE_BODY_LIMIT
    ensures Reached(St(c, [], []), {}) && c.s.phase == Gone && c.d.viewer == b
    ensures c.u.end == Eof && c.u.got == head + rest && !c.h.eof
  {
    var c1 := HeadIsRead(head);
    c1 := RestIsRead(c1, rest);
    assert [] + rest == rest;
    hide Reached, Effect;
    var c2 := InlineHappens(c1, b);
    var c3 := PumpStops(c2);
    c := EndIsSeen(c3);
  }

  lemma {:induction false} EndIsSeen(c: Http) returns (n: Http)
    requires Reached(St(c, [Close] + [], []), {}) && c.k.hand.None? && c.k.body
    requires c.u.made && c.u.queue == [] && c.u.rem == [] && c.u.closes == 0 && !c.u.aborted && c.u.end == Open
    ensures Reached(St(n, [], []), {}) && n.u.end == Eof && n.u.got == c.u.got && n.s == c.s && n.h == c.h && n.d == c.d
  {
    hide Reached, ServeEffect, LoopEffect, ReplyEffect;
    var c1 := c.(k := c.k.(body := false), u := c.u.(closes := 1),
                 n := c.n.(closes := c.n.closes + 1, cutShort := c.n.cutShort || Over(c.s.phase)));
    TakesDown(c, LClose, c1, Close, [], [], {});
    n := c1.(u := c1.u.(end := Eof));
    Silent(c1, REnd, n, [], [], {});
  }
}
