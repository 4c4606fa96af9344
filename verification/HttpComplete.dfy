/**
 When a response, and when an upload, arrive whole. A close frame means "end" as well as
 "abort", in both directions, and the same frame ends an upload or cancels a response; so
 completeness speaks of runs in which nothing failed, timed out or was refused, other than a
 read of a body or an upload that nobody read.
 */
module HttpComplete {
  import opened Basics
  import opened Link
  import opened HttpExchange

  /** The number of close frames on a link. */
  function Closes(link: seq<Msg>): nat {
    if link == [] then 0 else (if link[0] == Close then 1 else 0) + Closes(link[1..])
  }

  lemma {:induction false} ClosesAppend(a: seq<Msg>, b: seq<Msg>)
    ensures Closes(a + b) == Closes(a) + Closes(b)
  {
    if a == [] {
      assert a + b == b;
    } else {
      assert (a + b)[1..] == a[1..] + b;
      ClosesAppend(a[1..], b);
    }
  }

  lemma {:induction false} ClosesPush(link: seq<Msg>, ok: bool, m: Msg)
    ensures Closes(link + Push(ok, m)) == Closes(link) + (if ok && m == Close then 1 else 0)
  {
    ClosesAppend(link, Push(ok, m));
    assert Push(ok, m) != [] ==> Push(ok, m)[1..] == [];
  }

  lemma {:induction false} ClosesPop(link: seq<Msg>)
    requires link != []
    ensures Closes(link) == Closes(link[1..]) + (if link[0] == Close then 1 else 0)
  {
  }

  function One(b: bool): nat { if b then 1 else 0 }

  predicate Registered(p: ClientPhase) {
    p == Doing || p == Slot || p == Header || p == First || p == Pumping || p == Stop || p == Uncancel || p == Leave
  }

  /** The client has sent its close, or never will. */
  predicate Past(p: ClientPhase) { p == Uncancel || p == Leave || p == Ended }

  /** The server has sent its own close for the response. */
  predicate ServerClosed(p: ServerPhase, d: Reply) { Over(p) && d.seen == Some(Streamed) }

  /** Close frames are accounted for: at most one of the upload pump, and the server's own
      only after the client's. So none of them can cancel a response that is under way. */
  ghost predicate Counted(pump: Pump, closed: bool, p: ClientPhase, body: bool, cancels: nat,
                          streamed: bool, closes: nat, down: seq<Msg>) {
    && Closes(down) + closes == One(pump == PumpEnd) + One(closed)
    && (!streamed ==> pump == NoPump)
    && (streamed && Registered(p) && closes == 0 ==> body)
    && (!Past(p) ==> cancels == 0)
  }

  /** Nothing follows the client's close. */
  ghost predicate CloseEnds(p: ClientPhase, res: Option<Response>, up: seq<Msg>) {
    forall j :: 0 <= j < |up| && up[j] == Close ==> j == |up| - 1 && Past(p) && res == Some(Streamed)
  }

  /** What the client has sent of the response. */
  ghost predicate ReplyWhole(p: ClientPhase, d: Reply, skipped: bool) {
    && (p == First || p == Pumping || p == Stop || p == Uncancel ==> d.res == Some(Streamed))
    && (Unsent(p) || p == First || p == Pumping ==> !d.eof && !d.broke && !skipped)
    && (p == Slot || p == Header || p == First ==> d.body != [])
    && (p == Stop || (Past(p) && d.res == Some(Streamed)) ==>
          (d.unsent == [] <==> !skipped) && (d.eof <==> !d.broke && !skipped))
    && (d.res.Some? && d.res.value.Inline? ==> d.res.value.genuine && d.eof && !d.broke && !skipped)
  }

  /** What the server has passed on of it. */
  ghost predicate ViewerWhole(q: ServerPhase, b: Inbox, p: ClientPhase, d: Reply, up: seq<Msg>) {
    && (Over(q) ==> d.seen.Some?)
    && (q == Last || ServerClosed(q, d) ==> b.closed && b.queue == [] && d.torn == [])
    && (b.closed ==> up == [] && b.hand.None? && b.refused == [] && Past(p) && d.res == Some(Streamed))
    && (q == Listed || q == Await || q == Relaying ==> b.listed || b.closed)
    && (b.done ==> q == Gone)
    && (d.seen.Some? && d.seen.value.Inline? ==> d.torn == [])
  }

  /** While the server still serves, the only close on the link ends the upload. */
  ghost predicate UploadEnds(over: bool, pump: Pump, down: seq<Msg>) {
    !over ==> forall j :: 0 <= j < |down| && down[j] == Close ==> j == |down| - 1 && pump == PumpEnd
  }

  ghost predicate UploadWhole(over: bool, pump: Pump, hand: Option<Bytes>, closes: nat, h: Sent,
                              cutShort: bool, down: seq<Msg>) {
    && UploadEnds(over, pump, down)
    && (!over && (pump == PumpClose || pump == PumpEnd) ==> h.unsent == [] && (h.eof <==> !h.broke))
    && (cutShort ==> over)
    && (pump == NoPump || pump == PumpHead || pump == PumpLoop ==> !h.broke)
    && (pump == PumpLoop ==> h.sent != []) && (h.sent != [] ==> h.sent[0] == h.head)
    && (closes == 1 && !cutShort ==>
          && pump == PumpEnd && hand.None? && h.handled == h.sent && h.missed == []
          && h.unsent == [] && (h.eof <==> !h.broke))
  }

  ghost predicate Whole(c: Http, down: seq<Msg>, up: seq<Msg>) {
    c.n.clean ==>
      && CloseEnds(c.k.phase, c.d.res, up)
      && ReplyWhole(c.k.phase, c.d, c.n.skipped)
      && ViewerWhole(c.s.phase, c.s.inbox, c.k.phase, c.d, up)
      && (!c.n.stalled ==>
            && !c.n.skipped
            && Counted(c.s.pump, ServerClosed(c.s.phase, c.d), c.k.phase, c.k.body, c.k.cancelCloses,
                       c.h.streamed, c.n.closes, down)
            && UploadWhole(Over(c.s.phase), c.s.pump, c.k.hand, c.u.closes, c.h, c.n.cutShort, down))
  }

  ghost predicate Good(c: Http, down: seq<Msg>, up: seq<Msg>) {
    Inv(c, down, up) && Whole(c, down, up)
  }

  lemma {:induction false} InitGood(streamed: bool, head: Bytes)
    ensures Good(Init(streamed, head), [], [])
  {
    InitInv(streamed, head);
    hide Inv, Flat;
  }

  ghost predicate StaysWhole(e: Option<Out<Http>>, r: Recv, down: seq<Msg>, up: seq<Msg>) {
    e.Some? && Arrived(r, down, up) ==>
      Whole(e.value.core, After(down, r.FromDown?, e.value.down), After(up, r.FromUp?, e.value.up))
  }

  lemma {:induction false} NoneWhole(r: Recv, down: seq<Msg>, up: seq<Msg>)
    ensures StaysWhole(None, r, down, up)
  {
  }

  // ---- Faults and steps that leave the accounts alone --------------------

  lemma {:induction false} FaultsWhole(c: Http, ok: bool, down: seq<Msg>, up: seq<Msg>)
    ensures StaysWhole(Timeout(c), Nothing, down, up) && StaysWhole(IdleOut(c), Nothing, down, up)
    ensures StaysWhole(ReceiveStalled(c, ok), Nothing, down, up) && StaysWhole(Cleanup(c), Nothing, down, up)
  {
  }

  lemma {:induction false} StalledWhole(c: Http, down: seq<Msg>, up: seq<Msg>)
    requires Good(c, down, up)
    ensures StaysWhole(ClientStalled(c), Nothing, down, up)
  {
    hide Inv, CloseEnds, ReplyWhole, ViewerWhole, Counted, UploadWhole;
  }

  lemma {:induction false} RespondWhole(c: Http, from: ClientPhase, to: ClientPhase, e: Bytes, ok: bool,
                                        down: seq<Msg>, up: seq<Msg>)
    ensures StaysWhole(Respond(c, from, to, e, ok), Nothing, down, up)
  {
  }

  lemma {:induction false} ListWhole(c: Http, down: seq<Msg>, up: seq<Msg>)
    requires Good(c, down, up)
    ensures StaysWhole(List(c), Nothing, down, up)
  {
    hide Closes, Flat, Datas, OneResponse, BodyOk, UploadOk, ChannelsOk, CloseEnds, ReplyWhole;
  }

  lemma {:induction false} UnlistWhole(c: Http, down: seq<Msg>, up: seq<Msg>)
    requires Good(c, down, up)
    ensures StaysWhole(RemovePending(c), Nothing, down, up) && StaysWhole(CloseDone(c), Nothing, down, up)
  {
    hide Closes, Flat, Datas, Inv, CloseEnds, ReplyWhole;
  }

  lemma {:induction false} SendReqWhole(c: Http, ok: bool, down: seq<Msg>, up: seq<Msg>)
    requires Good(c, down, up)
    ensures StaysWhole(SendReq(c, ok), Nothing, down, up)
  {
    ClosesPush(down, true, Req(false));
    hide Closes, Flat, Datas;
  }

  lemma {:induction false} GetInlineWhole(c: Http, n: nat, ok: bool, down: seq<Msg>, up: seq<Msg>)
    requires Good(c, down, up)
    ensures StaysWhole(GetInline(c, n, ok), Nothing, down, up)
  {
    hide Closes, Flat, Datas, Order, BodyOk, UploadOk, ChannelsOk, CloseEnds, Counted;
  }

  lemma {:induction false} GetStreamedWhole(c: Http, down: seq<Msg>, up: seq<Msg>)
    requires Good(c, down, up)
    ensures StaysWhole(GetStreamed(c), Nothing, down, up)
  {
    hide Closes, Flat, Datas, Order, BodyOk, UploadOk, ChannelsOk, CloseEnds, Counted, UploadWhole;
  }

  lemma {:induction false} TakeWhole(c: Http, n: nat, ok: bool, down: seq<Msg>, up: seq<Msg>)
    requires Good(c, down, up)
    ensures StaysWhole(TakeChunk(c, n, ok), Nothing, down, up)
  {
    hide Closes, Flat, Datas, Order, BodyOk, UploadOk, ChannelsOk, CloseEnds, Counted, UploadWhole;
  }

  lemma {:induction false} SeeEofWhole(c: Http, down: seq<Msg>, up: seq<Msg>)
    requires Good(c, down, up)
    ensures StaysWhole(SeeEof(c), Nothing, down, up)
  {
    hide Closes, Flat, Datas, Order, UploadOk, ChannelsOk;
  }

  lemma {:induction false} SendCloseWhole(c: Http, ok: bool, down: seq<Msg>, up: seq<Msg>)
    requires Good(c, down, up)
    ensures StaysWhole(SendClose(c, ok), Nothing, down, up)
  {
    ClosesPush(down, ok, Close);
    hide Closes, Flat, Datas, Order, UploadOk, ChannelsOk;
  }

  // ---- The upload pump ---------------------------------------------------

  lemma {:induction false} DataAfterNoClose(over: bool, pump: Pump, to: Pump, down: seq<Msg>, b: Bytes)
    requires UploadEnds(over, pump, down) && pump != PumpEnd
    ensures UploadEnds(over, to, down + [Data(b)]) && UploadEnds(over, to, down)
    ensures UploadEnds(over, PumpEnd, down + [Close])
  {
  }

  lemma {:induction false} PumpCounted(pump: Pump, to: Pump, closed: bool, k: Client, h: Sent, closes: nat, b: Bytes,
                                       down: seq<Msg>)
    requires Counted(pump, closed, k.phase, k.body, k.cancelCloses, h.streamed, closes, down) && pump != PumpEnd
    requires pump != NoPump && to != PumpEnd
    ensures Counted(to, closed, k.phase, k.body, k.cancelCloses, h.streamed, closes, down + [Data(b)])
    ensures Counted(to, closed, k.phase, k.body, k.cancelCloses, h.streamed, closes, down)
  {
    ClosesPush(down, true, Data(b));
    hide Closes;
  }

  /** The pump sends a chunk, or only moves on. */
  lemma {:induction false} PumpSends(over: bool, pump: Pump, to: Pump, hand: Option<Bytes>, closes: nat, h: Sent,
                                     b: Bytes, eof: bool, broke: bool, cutShort: bool, down: seq<Msg>)
    requires UploadWhole(over, pump, hand, closes, h, cutShort, down) && pump == PumpLoop && to != PumpEnd
    requires to == PumpClose ==> h.unsent == [] && (eof <==> !broke)
    requires to != PumpClose ==> !broke && to == PumpLoop
    ensures UploadWhole(over, to, hand, closes, h.(eof := eof, broke := broke), cutShort, down)
    ensures UploadWhole(over, to, hand, closes,
                        h.(rest := h.rest + b, sent := h.sent + [b], eof := eof, broke := broke), cutShort,
                        down + [Data(b)])
  {
    hide UploadEnds, Flat;
    DataAfterNoClose(over, pump, to, down, b);
  }

  lemma {:induction false} PumpHeadWhole(c: Http, ok: bool, down: seq<Msg>, up: seq<Msg>)
    requires Good(c, down, up)
    ensures StaysWhole(PumpSendHead(c, ok), Nothing, down, up)
  {
    hide Closes, Flat, Datas, Inv, CloseEnds, ReplyWhole, ViewerWhole, Counted, UploadEnds;
    if c.n.clean && !c.n.stalled && c.s.pump == PumpHead {
      PumpCounted(PumpHead, PumpLoop, ServerClosed(c.s.phase, c.d), c.k, c.h, c.n.closes, c.h.head, down);
      DataAfterNoClose(Over(c.s.phase), PumpHead, PumpLoop, down, c.h.head);
    }
  }

  lemma {:induction false} PumpReadWhole(c: Http, b: Bytes, ok: bool, last: bool, failed: bool,
                                         down: seq<Msg>, up: seq<Msg>)
    requires Good(c, down, up)
    ensures StaysWhole(PumpRead(c, b, ok, last, failed), Nothing, down, up)
  {
    hide Closes, Flat, Datas, Order, OneResponse, BodyOk, ChannelsOk, CloseEnds, ReplyWhole, ViewerWhole, Counted,
         UploadEnds;
    if c.n.clean && !c.n.stalled && c.s.pump == PumpLoop && (failed ==> last) {
      var to := if last then PumpClose else PumpLoop;
      PumpCounted(PumpLoop, to, ServerClosed(c.s.phase, c.d), c.k, c.h, c.n.closes, b, down);
      PumpSends(Over(c.s.phase), PumpLoop, to, c.k.hand, c.u.closes, c.h, b, last && !failed, c.h.broke || failed,
                c.n.cutShort, down);
    }
  }

  lemma {:induction false} PumpStopWhole(c: Http, down: seq<Msg>, up: seq<Msg>)
    requires Good(c, down, up)
    ensures StaysWhole(PumpStop(c), Nothing, down, up)
  {
    hide Closes, Flat, Datas, Inv, CloseEnds, ReplyWhole;
  }

  lemma {:induction false} PumpCloses(over: bool, closed: bool, k: Client, h: Sent, closes: nat, uc: nat,
                                      cutShort: bool, down: seq<Msg>)
    requires Counted(PumpClose, closed, k.phase, k.body, k.cancelCloses, h.streamed, closes, down)
    requires UploadWhole(over, PumpClose, k.hand, uc, h, cutShort, down)
    ensures Counted(PumpEnd, closed, k.phase, k.body, k.cancelCloses, h.streamed, closes, down + [Close])
    ensures UploadWhole(over, PumpEnd, k.hand, uc, h, cutShort, down + [Close])
  {
    ClosesPush(down, true, Close);
    DataAfterNoClose(over, PumpClose, PumpEnd, down, []);
    hide Closes, Flat, UploadEnds;
  }

  lemma {:induction false} PumpCloseWhole(c: Http, ok: bool, down: seq<Msg>, up: seq<Msg>)
    requires Good(c, down, up)
    ensures StaysWhole(PumpSendClose(c, ok), Nothing, down, up)
  {
    hide Inv, CloseEnds, ReplyWhole, ViewerWhole, Counted, UploadWhole;
    if c.n.clean && !c.n.stalled && c.s.pump == PumpClose {
      PumpCloses(Over(c.s.phase), ServerClosed(c.s.phase, c.d), c.k, c.h, c.n.closes, c.u.closes, c.n.cutShort, down);
    }
  }

  // ---- The server's frame loop -------------------------------------------

  lemma {:induction false} HandleResWhole(c: Http, r: Response, decodes: bool, down: seq<Msg>, up: seq<Msg>)
    requires Good(c, down, up)
    ensures StaysWhole(HandleRes(c, r, decodes), FromUp(Res(r)), down, up)
  {
    hide Closes, Flat, Datas, Inv, UploadWhole;
  }

  lemma {:induction false} LookupWhole(c: Http, b: Bytes, down: seq<Msg>, up: seq<Msg>)
    requires Good(c, down, up)
    ensures StaysWhole(ReceiveLookup(c, b), FromUp(Data(b)), down, up)
  {
    hide Closes, Flat, Datas, Inv, UploadWhole;
  }

  lemma {:induction false} SelectWhole(c: Http, down: seq<Msg>, up: seq<Msg>)
    requires Good(c, down, up)
    ensures StaysWhole(ReceiveQueued(c), Nothing, down, up) && StaysWhole(ReceiveDropped(c), Nothing, down, up)
  {
    hide Closes, Flat, Datas, Inv, UploadWhole;
  }

  lemma {:induction false} HandleCloseWhole(c: Http, down: seq<Msg>, up: seq<Msg>)
    requires Good(c, down, up)
    ensures StaysWhole(HandleClose(c), FromUp(Close), down, up)
  {
    hide Closes, Flat, Datas, Order, OneResponse, UploadOk, ChannelsOk, UploadWhole;
  }

  // ---- The client's frame loop -------------------------------------------

  lemma {:induction false} PopCounted(pump: Pump, closed: bool, k: Client, streamed: bool, closes: nat, down: seq<Msg>)
    requires Counted(pump, closed, k.phase, k.body, k.cancelCloses, streamed, closes, down) && down != []
    requires down[0] != Close
    ensures Counted(pump, closed, k.phase, k.body, k.cancelCloses, streamed, closes, down[1..])
    ensures k.phase == Absent ==> Counted(pump, closed, Spawned, k.body, k.cancelCloses, streamed, closes, down[1..])
  {
    ClosesPop(down);
    hide Closes;
  }

  lemma {:induction false} PopUploads(over: bool, pump: Pump, hand: Option<Bytes>, closes: nat, h: Sent,
                                      cutShort: bool, down: seq<Msg>)
    requires UploadWhole(over, pump, hand, closes, h, cutShort, down) && down != []
    ensures UploadWhole(over, pump, hand, closes, h, cutShort, down[1..])
  {
    hide Flat;
  }

  lemma {:induction false} ClientReqWhole(c: Http, down: seq<Msg>, up: seq<Msg>)
    requires Good(c, down, up)
    ensures StaysWhole(ClientReq(c), FromDown(Req(false)), down, up)
  {
    hide Inv, Counted, UploadWhole;
    if c.n.clean && !c.n.stalled && c.k.hand.None? && c.k.phase == Absent && Arrived(FromDown(Req(false)), down, up) {
      PopCounted(c.s.pump, ServerClosed(c.s.phase, c.d), c.k, c.h.streamed, c.n.closes, down);
      PopUploads(Over(c.s.phase), c.s.pump, c.k.hand, c.u.closes, c.h, c.n.cutShort, down);
    }
  }

  lemma {:induction false} ClientDataUploads(over: bool, pump: Pump, k: Client, u: Upload, h: Sent, b: Bytes,
                                             cutShort: bool, down: seq<Msg>)
    requires UploadWhole(over, pump, k.hand, u.closes, h, cutShort, down) && down != [] && down[0] == Data(b)
    requires UploadOk(pump, k.body, k.hand, u.made, h, down) && (k.body ==> u.closes == 0)
    ensures UploadWhole(over, pump, if k.body then Some(b) else None, u.closes,
                        Handled(k.body, u.made, h, b), cutShort, down[1..])
  {
    DatasPop(down);
    assert |h.handled + Datas(down)| == |h.handled| + |Datas(down)|;
    hide Flat, Datas;
  }

  lemma {:induction false} ClientDataWhole(c: Http, b: Bytes, down: seq<Msg>, up: seq<Msg>)
    requires Good(c, down, up)
    ensures StaysWhole(ClientData(c, b), FromDown(Data(b)), down, up)
  {
    hide Order, OneResponse, BodyOk, CloseEnds, ReplyWhole, ViewerWhole, Counted, UploadWhole;
    if c.n.clean && !c.n.stalled && c.k.hand.None? && Arrived(FromDown(Data(b)), down, up) {
      PopCounted(c.s.pump, ServerClosed(c.s.phase, c.d), c.k, c.h.streamed, c.n.closes, down);
      ClientDataUploads(Over(c.s.phase), c.s.pump, c.k, c.u, c.h, b, c.n.cutShort, down);
    }
    hide UploadOk;
  }

  lemma {:induction false} ClientQueuedWhole(c: Http, down: seq<Msg>, up: seq<Msg>)
    requires Good(c, down, up)
    ensures StaysWhole(ClientQueued(c), Nothing, down, up)
  {
    hide Closes, Flat, Datas, Order, OneResponse, BodyOk, UploadOk;
  }

  /** What a close does to the client's entries. */
  function CloseEntry(k: Client): Client {
    if k.body then k.(body := false)
    else if k.cancel then k.(cancel := false, cancelCloses := k.cancelCloses + 1)
    else k
  }

  /** The heart of it: in a clean run the close that reaches the client while it streams its
      response belongs to the upload. */
  lemma {:induction false} CloseCounted(pump: Pump, closed: bool, k: Client, streamed: bool, closes: nat,
                                        down: seq<Msg>)
    requires Counted(pump, closed, k.phase, k.body, k.cancelCloses, streamed, closes, down) && down != []
    requires down[0] == Close
    requires closed ==> Past(k.phase)
    requires k.cancel ==> Streaming(k.phase)
    ensures var e := CloseEntry(k);
            Counted(pump, closed, e.phase, e.body, e.cancelCloses, streamed, closes + 1, down[1..])
  {
    ClosesPop(down);
    hide Closes;
  }

  lemma {:induction false} CloseUploads(over: bool, pump: Pump, body: bool, made: bool, closes: nat, h: Sent,
                                        cutShort: bool, down: seq<Msg>)
    requires UploadWhole(over, pump, None, closes, h, cutShort, down) && down != [] && down[0] == Close
    requires UploadOk(pump, body, None, made, h, down)
    ensures body && closes == 0 ==> UploadWhole(over, pump, None, 1, h, cutShort || over, down[1..])
    ensures UploadWhole(over, pump, None, closes, h, cutShort, down[1..])
  {
    DatasPop(down);
    assert !over ==> down[1..] == [];
    assert down[1..] == [] ==> h.handled + [] == h.handled;
    hide Flat;
  }

  lemma {:induction false} ClientCloseWhole(c: Http, down: seq<Msg>, up: seq<Msg>)
    requires Good(c, down, up)
    ensures StaysWhole(ClientClose(c), FromDown(Close), down, up)
  {
    hide Closes, Flat, Datas, Order, OneResponse, BodyOk, CloseEnds, ReplyWhole, Counted, UploadWhole;
    if c.n.clean && !c.n.stalled && c.k.hand.None? && Arrived(FromDown(Close), down, up) {
      CloseCounted(c.s.pump, ServerClosed(c.s.phase, c.d), c.k, c.h.streamed, c.n.closes, down);
      CloseUploads(Over(c.s.phase), c.s.pump, c.k.body, c.u.made, c.u.closes, c.h, c.n.cutShort, down);
    }
    hide UploadOk;
  }

  // ---- The client's goroutine and the reader -------------------------------

  lemma {:induction false} BeginWhole(c: Http, down: seq<Msg>, up: seq<Msg>)
    requires Good(c, down, up)
    ensures StaysWhole(Begin(c), Nothing, down, up)
  {
    hide Closes, Flat, Datas, Order, OneResponse, BodyOk;
  }

  lemma {:induction false} ReplyInlineWhole(c: Http, b: Bytes, ok: bool, broken: Option<Bytes>, down: seq<Msg>,
                                            up: seq<Msg>)
    requires Good(c, down, up)
    ensures StaysWhole(ReplyInline(c, b, ok, broken), Nothing, down, up)
  {
    hide Closes, Flat, Datas, Order, BodyOk, UploadWhole;
  }

  lemma {:induction false} ReplyBigWhole(c: Http, b: Bytes, down: seq<Msg>, up: seq<Msg>)
    requires Good(c, down, up)
    ensures StaysWhole(ReplyBig(c, b), Nothing, down, up) && StaysWhole(ListCancel(c), Nothing, down, up)
  {
    hide Closes, Flat, Datas, Order, BodyOk, UploadWhole;
  }

  lemma {:induction false} SendHeaderWhole(c: Http, ok: bool, broken: Option<Bytes>, down: seq<Msg>, up: seq<Msg>)
    requires Good(c, down, up)
    ensures StaysWhole(SendHeader(c, ok, broken), Nothing, down, up)
  {
    hide Closes, Flat, Datas, Order, BodyOk, UploadWhole;
  }

  lemma {:induction false} SendFirstWhole(c: Http, ok: bool, down: seq<Msg>, up: seq<Msg>)
    requires Good(c, down, up)
    ensures StaysWhole(SendFirst(c, ok), Nothing, down, up)
  {
    hide Closes, Flat, Datas, Order, OneResponse, ChannelsOk, UploadOk, UploadWhole, Inbox.Valid;
  }

  lemma {:induction false} NoneUnsent(c: Http, down: seq<Msg>, up: seq<Msg>)
    requires Inv(c, down, up)
    ensures c.k.phase == Pumping ==> c.d.unsent == []
  {
    hide Flat, Datas, Order, OneResponse, ChannelsOk, UploadOk, Inbox.Valid;
  }

  lemma {:induction false} LocalReadWhole(c: Http, b: Bytes, ok: bool, last: bool, failed: bool, down: seq<Msg>,
                                          up: seq<Msg>)
    requires Good(c, down, up)
    ensures StaysWhole(LocalRead(c, b, ok, last, failed), Nothing, down, up)
  {
    hide Closes, Flat, Datas, Inv, UploadWhole;
    NoneUnsent(c, down, up);
  }

  lemma {:induction false} StopWhole(c: Http, ok: bool, down: seq<Msg>, up: seq<Msg>)
    requires Good(c, down, up)
    ensures StaysWhole(StopSendClose(c, ok), Nothing, down, up)
  {
    hide Closes, Flat, Datas, Inv, UploadWhole;
  }

  lemma {:induction false} LeaveWhole(c: Http, down: seq<Msg>, up: seq<Msg>)
    requires Good(c, down, up)
    ensures StaysWhole(UnlistCancel(c), Nothing, down, up) && StaysWhole(UnlistBody(c), Nothing, down, up)
  {
    hide Closes, Flat, Datas, Inv;
  }

  lemma {:induction false} ReaderWhole(c: Http, n: nat, down: seq<Msg>, up: seq<Msg>)
    requires Good(c, down, up)
    ensures StaysWhole(ReaderTake(c), Nothing, down, up) && StaysWhole(ReaderCopy(c, n), Nothing, down, up)
    ensures StaysWhole(ReaderSeeEnd(c), Nothing, down, up)
  {
    hide Closes, Flat, Datas, Inv;
  }

  // ---- Every step ----------------------------------------------------------

  lemma {:induction false} ServeStepWhole(c: Http, a: Act, down: seq<Msg>, up: seq<Msg>)
    requires Good(c, down, up)
    ensures StaysWhole(ServeEffect(c, a), Takes(a), down, up)
  {
    hide StaysWhole, Good, Whole, Inv, CloseDone, GetInline, GetStreamed, IdleOut, List, RemovePending, SeeEof,
         SendClose, SendReq, TakeChunk, Timeout;
    match a
    case SList => ListWhole(c, down, up);
    case SUnlist | SDone => UnlistWhole(c, down, up);
    case SSend(ok) => SendReqWhole(c, ok, down, up);
    case STimeout | SIdleOut => FaultsWhole(c, true, down, up);
    case SGet(n, ok) => GetInlineWhole(c, n, ok, down, up); GetStreamedWhole(c, down, up);
    case STake(n, ok) => TakeWhole(c, n, ok, down, up);
    case SEof => SeeEofWhole(c, down, up);
    case SClose(ok) => SendCloseWhole(c, ok, down, up);
    case _ => NoneWhole(Takes(a), down, up);
  }

  lemma {:induction false} LoopStepWhole(c: Http, a: Act, down: seq<Msg>, up: seq<Msg>)
    requires Good(c, down, up)
    ensures StaysWhole(LoopEffect(c, a), Takes(a), down, up)
  {
    hide StaysWhole, Good, Whole, Inv, Cleanup, HandleClose, HandleRes, PumpRead, PumpSendClose, PumpSendHead,
         PumpStop, ReceiveDropped, ReceiveLookup, ReceiveQueued, ReceiveStalled;
    match a
    case PSendHead(ok) => PumpHeadWhole(c, ok, down, up);
    case PRead(b, ok, last, failed) => PumpReadWhole(c, b, ok, last, failed, down, up);
    case PStop => PumpStopWhole(c, down, up);
    case PSendClose(ok) => PumpCloseWhole(c, ok, down, up);
    case FRes(r, decodes) => HandleResWhole(c, r, decodes, down, up);
    case FData(b) => LookupWhole(c, b, down, up);
    case FEnqueue | FDrop => SelectWhole(c, down, up);
    case FStall(ok) => FaultsWhole(c, ok, down, up);
    case FClose => HandleCloseWhole(c, down, up);
    case FCleanup => FaultsWhole(c, true, down, up);
    case _ => NoneWhole(Takes(a), down, up);
  }

  lemma {:induction false} ClientStepWhole(c: Http, a: Act, down: seq<Msg>, up: seq<Msg>)
    requires Good(c, down, up)
    ensures StaysWhole(ClientEffect(c, a), Takes(a), down, up)
  {
    hide StaysWhole, Good, Whole, Inv, ClientClose, ClientData, ClientQueued, ClientReq, ClientStalled, ReaderCopy,
         ReaderSeeEnd, ReaderTake;
    match a
    case LReq => ClientReqWhole(c, down, up);
    case LData(b) => ClientDataWhole(c, b, down, up);
    case LEnqueue => ClientQueuedWhole(c, down, up);
    case LStall => StalledWhole(c, down, up);
    case LClose => ClientCloseWhole(c, down, up);
    case RCopy(n) => ReaderWhole(c, n, down, up);
    case RTake | REnd => ReaderWhole(c, 0, down, up);
    case _ => NoneWhole(Takes(a), down, up);
  }

  lemma {:induction false} ReplyStepWhole(c: Http, a: Act, down: seq<Msg>, up: seq<Msg>)
    requires Good(c, down, up)
    ensures StaysWhole(ReplyEffect(c, a), Takes(a), down, up)
  {
    hide StaysWhole, Good, Whole, Inv, Begin, ListCancel, LocalRead, ReplyBig, ReplyInline, Respond, SendFirst,
         SendHeader, StopSendClose, UnlistBody, UnlistCancel;
    match a
    case KRefuse(e, ok) => RespondWhole(c, Spawned, Ended, e, ok, down, up);
    case KBegin => BeginWhole(c, down, up);
    case KFail(e, ok) => RespondWhole(c, Doing, Leave, e, ok, down, up);
    case KInline(b, ok, broken) => ReplyInlineWhole(c, b, ok, broken, down, up);
    case KBig(b) => ReplyBigWhole(c, b, down, up);
    case KNoSlot(e, ok) => RespondWhole(c, Slot, Leave, e, ok, down, up);
    case KListCancel => ReplyBigWhole(c, [], down, up);
    case KHeader(ok, broken) => SendHeaderWhole(c, ok, broken, down, up);
    case KFirst(ok) => SendFirstWhole(c, ok, down, up);
    case KRead(b, ok, last, failed) => LocalReadWhole(c, b, ok, last, failed, down, up);
    case KSendClose(ok) => StopWhole(c, ok, down, up);
    case KUnlistCancel | KUnlistBody => LeaveWhole(c, down, up);
    case _ => NoneWhole(Takes(a), down, up);
  }

  lemma {:induction false} StepGood(c: Http, a: Act, down: seq<Msg>, up: seq<Msg>)
    requires Good(c, down, up) && Effect(c, a).Some? && Arrived(Takes(a), down, up)
    ensures var o := Effect(c, a).value;
            Good(o.core, After(down, Takes(a).FromDown?, o.down), After(up, Takes(a).FromUp?, o.up))
  {
    hide Inv, Whole, ServeEffect, LoopEffect, ClientEffect, ReplyEffect;
    StepKeeps(c, a, down, up);
    if IsServeAct(a) {
      ServeStepWhole(c, a, down, up);
    } else if IsClientAct(a) {
      ClientStepWhole(c, a, down, up);
    } else if IsReplyAct(a) {
      ReplyStepWhole(c, a, down, up);
    } else {
      LoopStepWhole(c, a, down, up);
    }
  }

  // ---- What it promises ----------------------------------------------------

  lemma {:induction false} StreamedGets(c: Http, down: seq<Msg>, up: seq<Msg>)
    requires Good(c, down, up) && c.n.clean && Over(c.s.phase) && c.d.seen == Some(Streamed)
    ensures c.d.body == c.d.viewer + c.d.unsent
  {
    assert Datas([]) == [];
    hide Inv, Flat, Datas, CloseEnds, ReplyWhole, Counted, UploadWhole;
    ReplyAccount(c, down, up);
    FlatNone(c.s.inbox.queue);
    FlatNone(c.s.inbox.refused);
    FlatNone(Datas(up));
  }

  lemma {:induction false} InlineGets(c: Http, down: seq<Msg>, up: seq<Msg>)
    requires Good(c, down, up) && c.n.clean && Over(c.s.phase) && c.d.seen != Some(Streamed)
    ensures c.d.seen.Some? && c.d.body == c.d.viewer && c.d.eof && !c.d.broke && !c.n.skipped
  {
    hide Flat, Datas, Order, BodyOk, UploadOk, ChannelsOk, CloseEnds, Counted, UploadWhole;
    ReplyAccount(c, down, up);
  }

  /** When nothing failed but reads and stalled uploads: a finished exchange has shown its viewer
      the local body, inline or streamed, up to what was read after a cancel; so it has shown all
      that was read if and only if no chunk was skipped, and that is the whole body if and only
      if besides no read failed. Only a stalled upload can make it skip one. */
  lemma {:induction false} ViewerGetsIff(c: Http, down: seq<Msg>, up: seq<Msg>)
    requires Good(c, down, up) && c.n.clean && Over(c.s.phase)
    ensures c.d.seen.Some? && (c.d.viewer == c.d.body <==> !c.n.skipped)
    ensures c.d.seen == Some(Streamed) ==> c.d.body == c.d.viewer + c.d.unsent
    ensures c.d.eof <==> !c.d.broke && !c.n.skipped
    ensures !c.n.stalled ==> !c.n.skipped
  {
    hide Flat, Datas, Closes, Order, BodyOk, UploadOk, ChannelsOk, Counted, UploadWhole;
    if c.d.seen == Some(Streamed) {
      StreamedGets(c, down, up);
    } else {
      InlineGets(c, down, up);
    }
  }

  /** When nothing failed, the viewer of a finished exchange has the whole local body, however
      large and however it was cut into chunks. */
  lemma {:induction false} ViewerGetsAll(c: Http, down: seq<Msg>, up: seq<Msg>)
    requires Good(c, down, up) && c.n.clean && !c.n.stalled && !c.d.broke && Over(c.s.phase)
    ensures c.d.seen.Some? && c.d.eof && c.d.viewer == c.d.body
  {
    hide Inv, Whole;
    ViewerGetsIff(c, down, up);
  }

  lemma {:induction false} CutIsShorter(sent: seq<Bytes>, lost: nat)
    requires lost <= |sent|
    ensures sent != [] && sent[0] != [] && lost > 0 ==> |Flat(sent[lost..])| < |Flat(sent)|
    ensures lost == 0 ==> sent[lost..] == sent
  {
    assert sent == sent[..lost] + sent[lost..];
    FlatAppend(sent[..lost], sent[lost..]);
    if lost > 0 {
      FlatHead(sent[..lost]);
    }
  }

  /** When nothing failed and the server did not finish before the upload's end was handled, a
      reader that saw the end has read every chunk from the first that its stream was
      registered for: it has exactly what was read of the viewer's body if and only if the stream
      was registered before the first data frame, and that is the whole body if and only if no
      read failed. */
  lemma {:induction false} UploadExact(c: Http, down: seq<Msg>, up: seq<Msg>)
    requires Good(c, down, up) && c.n.clean && !c.n.stalled && !c.n.cutShort && c.u.end == Eof
    ensures (c.h.eof <==> !c.h.broke) && c.h.lost <= |c.h.sent| && c.u.got == Flat(c.h.sent[c.h.lost..])
    ensures c.h.lost == 0 ==> c.u.got == c.h.head + c.h.rest
    ensures c.h.head != [] && c.u.got == c.h.head + c.h.rest ==> c.h.lost == 0
  {
    hide Flat, Datas, Closes, Order, OneResponse, BodyOk, CloseEnds, ReplyWhole, Counted, ViewerWhole, UploadEnds;
    UploadPromise(c, down, up);
    assert c.h.queued + [] + [] == c.h.queued;
    assert Flat(c.h.sent) + [] == Flat(c.h.sent);
    CutIsShorter(c.h.sent, c.h.lost);
  }

  /** The last condition holds whenever the local application has not answered yet. */
  lemma {:induction false} NotCutShort(c: Http, down: seq<Msg>, up: seq<Msg>)
    requires Good(c, down, up) && c.n.clean && !c.n.stalled && Unsent(c.k.phase)
    ensures !c.n.cutShort
  {
    hide Flat, Datas, Closes, Order, BodyOk, UploadOk, ChannelsOk, Counted;
  }
}
