/**
 One proxied HTTP exchange: ServeHTTP, its upload pump and the frame loop on the server;
 handleHTTPReq, streamResponseBody, the body-stream reader and the frame loop on the
 client. Uploads above the inline limit follow the request as data frames; so do responses
 above it. Timeouts, failures and the local application's choices are nondeterministic.
 */
module HttpExchange {
  import opened Basics
  import opened Link

  datatype ServerPhase = Idle | Listed | Await | Relaying | Last | Leaving | Unlisted | Gone
  datatype Pump = NoPump | PumpHead | PumpLoop | PumpClose | PumpEnd
  datatype ClientPhase = Absent | Spawned | Doing | Slot | Header | First | Pumping | Stop | Uncancel | Leave | Ended
  datatype ReaderEnd = Open | Eof | Aborted

  datatype Server = Server(phase: ServerPhase, inbox: Inbox, resp: Option<Response>, pump: Pump)

  /** The client's entries for the ID: `body` and `cancel` say whether it is in bodyStreams
      and in respCancels; `hand` is the upload chunk the frame loop is trying to queue. */
  datatype Client = Client(phase: ClientPhase, body: bool, cancel: bool, cancelCloses: nat, hand: Option<Bytes>)

  /** bodyStream and bodyStreamReader: the channel with how often it was closed, and the
      bytes the local application has read. */
  datatype Upload = Upload(made: bool, queue: seq<Bytes>, closes: nat, aborted: bool,
                           rem: Bytes, got: Bytes, end: ReaderEnd)

  /** History of the upload: what ServeHTTP had buffered, what the pump read after it, whether
      that was the end and whether a read failed; the chunks sent and the bytes not, or not yet,
      sent; the chunks handled, how many of them before the stream was registered, those queued
      and those that came after the stream's end. */
  datatype Sent = Sent(streamed: bool, head: Bytes, rest: Bytes, eof: bool, broke: bool, sent: seq<Bytes>,
                       unsent: Bytes, handled: seq<Bytes>, lost: nat, queued: seq<Bytes>, missed: seq<Bytes>)

  /** History of the response: the local body read so far, whether its end was reached and whether
      a read failed; the chunks sent and the bytes not, or not yet, sent; the response frame sent
      and acted on; the bytes the viewer got and those a failed write left. */
  datatype Reply = Reply(body: Bytes, eof: bool, broke: bool, sent: seq<Bytes>, unsent: Bytes, res: Option<Response>,
                         seen: Option<Response>, viewer: Bytes, torn: Bytes)

  /** `clean`: nothing failed, timed out or was refused, other than a read of a body or, noted
      as `stalled`, an upload nobody reads. `skipped`: a chunk of the response was not sent
      because the response had been cancelled. `closes`: close frames handled by the client.
      `cutShort`: the upload was ended although the server was already finished. */
  datatype Notes = Notes(clean: bool, stalled: bool, skipped: bool, closes: nat, cutShort: bool)

  datatype Http = Http(s: Server, k: Client, u: Upload, d: Reply, h: Sent, n: Notes)

  function Init(streamed: bool, head: Bytes): Http {
    Http(Server(Idle, EMPTY_INBOX, None, NoPump), Client(Absent, false, false, 0, None),
         Upload(false, [], 0, false, [], [], Open), Reply([], false, false, [], [], None, None, [], []),
         Sent(streamed, head, [], false, false, [], head, [], 0, [], []), Notes(true, false, false, 0, false))
  }

  datatype Act =
    // ServeHTTP, startForward, awaitResponse, streamResponse, finishForward
    | SList | SSend(ok: bool) | STimeout | SGet(n: nat, ok: bool) | STake(n: nat, ok: bool) | SEof | SIdleOut
    | SClose(ok: bool) | SUnlist | SDone
    // pumpRequestBody
    | PSendHead(ok: bool) | PRead(b: Bytes, ok: bool, last: bool, failed: bool) | PStop | PSendClose(ok: bool)
    // the server's frame loop
    | FRes(r: Response, decodes: bool) | FData(b: Bytes) | FEnqueue | FDrop | FStall(ok: bool) | FClose | FCleanup
    // the client's frame loop
    | LReq | LData(b: Bytes) | LEnqueue | LStall | LClose
    // handleHTTPReq, handleNormalHTTPReq, streamResponseBody
    | KRefuse(e: Bytes, ok: bool) | KBegin | KFail(e: Bytes, ok: bool)
    | KInline(b: Bytes, ok: bool, broken: Option<Bytes>)
    | KBig(b: Bytes) | KNoSlot(e: Bytes, ok: bool) | KListCancel | KHeader(ok: bool, broken: Option<Bytes>)
    | KFirst(ok: bool) | KRead(b: Bytes, ok: bool, last: bool, failed: bool) | KSendClose(ok: bool) | KUnlistCancel
    | KUnlistBody
    // bodyStreamReader.Read, as the local request's transport calls it
    | RTake | RCopy(n: nat) | REnd

  function Takes(a: Act): Recv {
    match a
    case FRes(r, _) => FromUp(Res(r))
    case FData(b) => FromUp(Data(b))
    case FClose => FromUp(Close)
    case LReq => FromDown(Req(false))
    case LData(b) => FromDown(Data(b))
    case LClose => FromDown(Close)
    case _ => Nothing
  }

  function Fault(n: Notes, ok: bool): Notes { n.(clean := n.clean && ok) }

  // ---- ServeHTTP --------------------------------------------------------

  function List(c: Http): Option<Out<Http>> {
    if c.s.phase == Idle && c.s.inbox == EMPTY_INBOX
    then Just(c.(s := c.s.(phase := Listed, inbox := Enlist(c.s.inbox)))) else None
  }

  function SendReq(c: Http, ok: bool): Option<Out<Http>> {
    if c.s.phase != Listed then None
    else if ok then
      Some(Out(c.(s := c.s.(phase := Await, pump := if c.h.streamed then PumpHead else NoPump)), [Req(false)], []))
    else Just(c.(s := c.s.(phase := Leaving), n := Fault(c.n, false)))
  }

  function Timeout(c: Http): Option<Out<Http>> {
    if c.s.phase == Await then Just(c.(s := c.s.(phase := Leaving), n := Fault(c.n, false))) else None
  }

  /** The response arrives: an inline body is written at once, a streamed one is relayed. */
  function GetInline(c: Http, n: nat, ok: bool): Option<Out<Http>> {
    if c.s.phase != Await || c.s.resp.None? || !c.s.resp.value.Inline? then None
    else
      var b := c.s.resp.value.body;
      if n > |b| || (ok && n < |b|) then None
      else Just(c.(s := c.s.(phase := Leaving),
                   d := c.d.(seen := c.s.resp, viewer := b[..n], torn := b[n..]), n := Fault(c.n, ok)))
  }

  function GetStreamed(c: Http): Option<Out<Http>> {
    if c.s.phase == Await && c.s.resp == Some(Streamed)
    then Just(c.(s := c.s.(phase := Relaying), d := c.d.(seen := c.s.resp))) else None
  }

  function TakeChunk(c: Http, n: nat, ok: bool): Option<Out<Http>> {
    var q := c.s.inbox.queue;
    if c.s.phase != Relaying || q == [] || n > |q[0]| || (ok && n < |q[0]|) then None
    else Just(c.(s := c.s.(phase := if ok then Relaying else Last, inbox := Take(c.s.inbox)),
                 d := c.d.(viewer := c.d.viewer + q[0][..n], torn := c.d.torn + q[0][n..]), n := Fault(c.n, ok)))
  }

  function SeeEof(c: Http): Option<Out<Http>> {
    if c.s.phase == Relaying && c.s.inbox.closed && c.s.inbox.queue == []
    then Just(c.(s := c.s.(phase := Last))) else None
  }

  function IdleOut(c: Http): Option<Out<Http>> {
    if c.s.phase == Relaying then Just(c.(s := c.s.(phase := Last), n := Fault(c.n, false))) else None
  }

  function SendClose(c: Http, ok: bool): Option<Out<Http>> {
    if c.s.phase != Last then None
    else Some(Out(c.(s := c.s.(phase := Leaving), n := Fault(c.n, ok)), Push(ok, Close), []))
  }

  function RemovePending(c: Http): Option<Out<Http>> {
    if c.s.phase == Leaving then Just(c.(s := c.s.(phase := Unlisted, inbox := Unlist(c.s.inbox)))) else None
  }

  function CloseDone(c: Http): Option<Out<Http>> {
    if c.s.phase == Unlisted && !c.s.inbox.listed
    then Just(c.(s := c.s.(phase := Gone, inbox := MarkDone(c.s.inbox)))) else None
  }

  // ---- pumpRequestBody --------------------------------------------------

  function PumpSendHead(c: Http, ok: bool): Option<Out<Http>> {
    if c.s.pump != PumpHead then None
    else if ok then
      Some(Out(c.(s := c.s.(pump := PumpLoop), h := c.h.(sent := c.h.sent + [c.h.head], unsent := [])),
               [Data(c.h.head)], []))
    else Just(c.(s := c.s.(pump := PumpClose), n := Fault(c.n, false)))
  }

  /** One read of the viewer's body; `failed` tells a read error from the end. Either way the
      pump leaves its loop, and its close frame follows. */
  function PumpRead(c: Http, b: Bytes, ok: bool, last: bool, failed: bool): Option<Out<Http>> {
    if c.s.pump != PumpLoop || |b| > STREAM_BUF_SIZE || (failed && !last) then None
    else
      var eof := last && !failed;
      var to := if last then PumpClose else PumpLoop;
      if b == [] then Just(c.(s := c.s.(pump := to), h := c.h.(eof := eof, broke := c.h.broke || failed)))
      else if ok then
        Some(Out(c.(s := c.s.(pump := to),
                    h := c.h.(rest := c.h.rest + b, sent := c.h.sent + [b], eof := eof,
                              broke := c.h.broke || failed)),
                 [Data(b)], []))
      else Just(c.(s := c.s.(pump := PumpClose), h := c.h.(rest := c.h.rest + b, unsent := c.h.unsent + b),
                   n := Fault(c.n, false)))
  }

  function PumpStop(c: Http): Option<Out<Http>> {
    if c.s.pump == PumpLoop && c.s.inbox.done then Just(c.(s := c.s.(pump := PumpClose))) else None
  }

  function PumpSendClose(c: Http, ok: bool): Option<Out<Http>> {
    if c.s.pump != PumpClose then None
    else Some(Out(c.(s := c.s.(pump := PumpEnd), n := Fault(c.n, ok)), Push(ok, Close), []))
  }

  // ---- The server's frame loop ------------------------------------------

  /** handleHTTPRes: a response its decoder rejects is dropped; the entry stays listed; the
      response channel holds one. */
  function HandleRes(c: Http, r: Response, decodes: bool): Option<Out<Http>> {
    if c.s.inbox.hand.Some? then None
    else if !decodes then Just(c.(n := Fault(c.n, false)))
    else if c.s.inbox.listed && c.s.resp.None? then Just(c.(s := c.s.(resp := Some(r))))
    else Just(c)
  }

  function ReceiveLookup(c: Http, b: Bytes): Option<Out<Http>> {
    if c.s.inbox.hand.None? then Just(c.(s := c.s.(inbox := Lookup(c.s.inbox, b)))) else None
  }

  function ReceiveQueued(c: Http): Option<Out<Http>> {
    if c.s.inbox.hand.Some? && !c.s.inbox.closed && |c.s.inbox.queue| < STREAM_RELAY_BUF
    then Just(c.(s := c.s.(inbox := Enqueue(c.s.inbox)))) else None
  }

  function ReceiveDropped(c: Http): Option<Out<Http>> {
    if c.s.inbox.hand.Some? && (c.s.inbox.done || c.s.inbox.closed)
    then Just(c.(s := c.s.(inbox := Drop(c.s.inbox)))) else None
  }

  function ReceiveStalled(c: Http, ok: bool): Option<Out<Http>> {
    if c.s.inbox.hand.Some?
    then Some(Out(c.(s := c.s.(inbox := Stall(c.s.inbox)), n := Fault(c.n, false)), Push(ok, Close), [])) else None
  }

  function HandleClose(c: Http): Option<Out<Http>> {
    if c.s.inbox.hand.None? then Just(c.(s := c.s.(inbox := PeerClose(c.s.inbox)))) else None
  }

  function Cleanup(c: Http): Option<Out<Http>> {
    Just(c.(s := c.s.(inbox := CleanUp(c.s.inbox)), n := Fault(c.n, false)))
  }

  // ---- The client's frame loop ------------------------------------------

  function ClientReq(c: Http): Option<Out<Http>> {
    if c.k.hand.None? && c.k.phase == Absent then Just(c.(k := c.k.(phase := Spawned))) else None
  }

  function Handled(body: bool, made: bool, h: Sent, b: Bytes): Sent {
    h.(handled := h.handled + [b], lost := if made then h.lost else h.lost + 1,
       missed := if made && !body then h.missed + [b] else h.missed)
  }

  /** handleStreamData for an upload: a chunk for an unregistered stream is dropped. */
  function ClientData(c: Http, b: Bytes): Option<Out<Http>> {
    if c.k.hand.Some? then None
    else Just(c.(h := Handled(c.k.body, c.u.made, c.h, b),
                 k := c.k.(hand := if c.k.body then Some(b) else None)))
  }

  function ClientQueued(c: Http): Option<Out<Http>> {
    if c.k.hand.Some? && |c.u.queue| < STREAM_RELAY_BUF
    then Just(c.(u := c.u.(queue := c.u.queue + [c.k.hand.value]), h := c.h.(queued := c.h.queued + [c.k.hand.value]),
                 k := c.k.(hand := None))) else None
  }

  /** The local application does not consume the upload: the stream is aborted. */
  function ClientStalled(c: Http): Option<Out<Http>> {
    if c.k.hand.Some?
    then Just(c.(k := c.k.(hand := None, body := false), u := c.u.(aborted := true, closes := c.u.closes + 1),
                 h := c.h.(missed := c.h.missed + [c.k.hand.value]), n := c.n.(stalled := true))) else None
  }

  /** The server is past sending its own close. */
  predicate Over(p: ServerPhase) { p == Leaving || p == Unlisted || p == Gone }

  /** handleStreamClose: the upload's entry first, then the response's. */
  function ClientClose(c: Http): Option<Out<Http>> {
    if c.k.hand.Some? then None
    else if c.k.body then
      Just(c.(k := c.k.(body := false), u := c.u.(closes := c.u.closes + 1),
              n := c.n.(closes := c.n.closes + 1, cutShort := c.n.cutShort || Over(c.s.phase))))
    else if c.k.cancel then
      Just(c.(k := c.k.(cancel := false, cancelCloses := c.k.cancelCloses + 1), n := c.n.(closes := c.n.closes + 1)))
    else Just(c.(n := c.n.(closes := c.n.closes + 1)))
  }

  // ---- handleNormalHTTPReq and streamResponseBody -----------------------

  /** A response frame the client made up: no slot, bad payload, unknown tunnel, local error. */
  function Respond(c: Http, from: ClientPhase, to: ClientPhase, e: Bytes, ok: bool): Option<Out<Http>> {
    if c.k.phase != from then None
    else Some(Out(c.(k := c.k.(phase := to), d := c.d.(res := Some(Inline(e, false))), n := Fault(c.n, false)),
                  [], Push(ok, Res(Inline(e, false)))))
  }

  function Begin(c: Http): Option<Out<Http>> {
    if c.k.phase != Spawned then None
    else Just(c.(k := c.k.(phase := Doing, body := c.h.streamed), u := c.u.(made := c.h.streamed)))
  }

  /** The response that is sent: `r`, or an error text when encoding it failed. */
  function Answer(r: Response, broken: Option<Bytes>): Response {
    if broken.None? then r else Inline(broken.value, false)
  }

  function ReplyInline(c: Http, b: Bytes, ok: bool, broken: Option<Bytes>): Option<Out<Http>> {
    if c.k.phase != Doing || |b| > INLINE_BODY_LIMIT then None
    else Some(Out(c.(k := c.k.(phase := Leave), n := Fault(c.n, ok && broken.None?),
                     d := c.d.(body := b, eof := true, unsent := if broken.None? then [] else b,
                               res := Some(Answer(Inline(b, true), broken)))),
                  [], Push(ok, Res(Answer(Inline(b, true), broken)))))
  }

  function ReplyBig(c: Http, b: Bytes): Option<Out<Http>> {
    if c.k.phase == Doing && |b| == INLINE_BODY_LIMIT + 1
    then Just(c.(k := c.k.(phase := Slot), d := c.d.(body := b, unsent := b))) else None
  }

  function ListCancel(c: Http): Option<Out<Http>> {
    if c.k.phase == Slot then Just(c.(k := c.k.(phase := Header, cancel := true))) else None
  }

  function SendHeader(c: Http, ok: bool, broken: Option<Bytes>): Option<Out<Http>> {
    if c.k.phase != Header then None
    else Some(Out(c.(k := c.k.(phase := First), n := Fault(c.n, ok && broken.None?),
                     d := c.d.(res := Some(Answer(Streamed, broken)))),
                  [], Push(ok, Res(Answer(Streamed, broken)))))
  }

  /** send: nothing leaves once the response is cancelled. */
  function SendFirst(c: Http, ok: bool): Option<Out<Http>> {
    if c.k.phase != First then None
    else if c.k.cancelCloses > 0 then Just(c.(k := c.k.(phase := Stop), n := c.n.(skipped := true)))
    else if ok then
      Some(Out(c.(k := c.k.(phase := Pumping), d := c.d.(sent := c.d.sent + [c.d.body], unsent := [])),
               [], [Data(c.d.body)]))
    else Just(c.(k := c.k.(phase := Stop), n := Fault(c.n, false)))
  }

  /** One read of the rest of the body; `failed` tells a read error from the end. */
  function LocalRead(c: Http, b: Bytes, ok: bool, last: bool, failed: bool): Option<Out<Http>> {
    if c.k.phase != Pumping || |b| > STREAM_BUF_SIZE || (failed && !last) then None
    else
      var eof := last && !failed;
      if b == [] then
        Just(c.(k := c.k.(phase := if last then Stop else Pumping),
                d := c.d.(eof := eof, broke := c.d.broke || failed)))
      else if c.k.cancelCloses > 0 then
        Just(c.(k := c.k.(phase := Stop),
                d := c.d.(body := c.d.body + b, unsent := c.d.unsent + b, broke := c.d.broke || failed),
                n := c.n.(skipped := true)))
      else if ok then
        Some(Out(c.(k := c.k.(phase := if last then Stop else Pumping),
                    d := c.d.(body := c.d.body + b, sent := c.d.sent + [b], eof := eof,
                              broke := c.d.broke || failed)),
                 [], [Data(b)]))
      else Just(c.(k := c.k.(phase := Stop), d := c.d.(body := c.d.body + b, unsent := c.d.unsent + b),
                   n := Fault(c.n, false)))
  }

  function StopSendClose(c: Http, ok: bool): Option<Out<Http>> {
    if c.k.phase != Stop then None
    else Some(Out(c.(k := c.k.(phase := Uncancel), n := Fault(c.n, ok)), [], Push(ok, Close)))
  }

  function UnlistCancel(c: Http): Option<Out<Http>> {
    if c.k.phase == Uncancel then Just(c.(k := c.k.(phase := Leave, cancel := false))) else None
  }

  function UnlistBody(c: Http): Option<Out<Http>> {
    if c.k.phase == Leave then Just(c.(k := c.k.(phase := Ended, body := false))) else None
  }

  // ---- bodyStreamReader.Read --------------------------------------------

  function ReaderTake(c: Http): Option<Out<Http>> {
    if c.u.made && c.u.rem == [] && c.u.queue != []
    then Just(c.(u := c.u.(rem := c.u.queue[0], queue := c.u.queue[1..]))) else None
  }

  function ReaderCopy(c: Http, n: nat): Option<Out<Http>> {
    if n > |c.u.rem| then None
    else Just(c.(u := c.u.(got := c.u.got + c.u.rem[..n], rem := c.u.rem[n..])))
  }

  function ReaderSeeEnd(c: Http): Option<Out<Http>> {
    if c.u.made && c.u.rem == [] && c.u.queue == [] && c.u.closes > 0 && c.u.end == Open
    then Just(c.(u := c.u.(end := if c.u.aborted then Aborted else Eof))) else None
  }

  // ---- Steps ------------------------------------------------------------

  function ServeEffect(c: Http, a: Act): Option<Out<Http>> {
    match a
    case SList => List(c)
    case SSend(ok) => SendReq(c, ok)
    case STimeout => Timeout(c)
    case SGet(n, ok) => if c.s.resp == Some(Streamed) then GetStreamed(c) else GetInline(c, n, ok)
    case STake(n, ok) => TakeChunk(c, n, ok)
    case SEof => SeeEof(c)
    case SIdleOut => IdleOut(c)
    case SClose(ok) => SendClose(c, ok)
    case SUnlist => RemovePending(c)
    case SDone => CloseDone(c)
    case _ => None
  }

  function LoopEffect(c: Http, a: Act): Option<Out<Http>> {
    match a
    case PSendHead(ok) => PumpSendHead(c, ok)
    case PRead(b, ok, last, failed) => PumpRead(c, b, ok, last, failed)
    case PStop => PumpStop(c)
    case PSendClose(ok) => PumpSendClose(c, ok)
    case FRes(r, decodes) => HandleRes(c, r, decodes)
    case FData(b) => ReceiveLookup(c, b)
    case FEnqueue => ReceiveQueued(c)
    case FDrop => ReceiveDropped(c)
    case FStall(ok) => ReceiveStalled(c, ok)
    case FClose => HandleClose(c)
    case FCleanup => Cleanup(c)
    case _ => None
  }

  function ClientEffect(c: Http, a: Act): Option<Out<Http>> {
    match a
    case LReq => ClientReq(c)
    case LData(b) => ClientData(c, b)
    case LEnqueue => ClientQueued(c)
    case LStall => ClientStalled(c)
    case LClose => ClientClose(c)
    case RTake => ReaderTake(c)
    case RCopy(n) => ReaderCopy(c, n)
    case REnd => ReaderSeeEnd(c)
    case _ => None
  }

  function ReplyEffect(c: Http, a: Act): Option<Out<Http>> {
    match a
    case KRefuse(e, ok) => Respond(c, Spawned, Ended, e, ok)
    case KBegin => Begin(c)
    case KFail(e, ok) => Respond(c, Doing, Leave, e, ok)
    case KInline(b, ok, broken) => ReplyInline(c, b, ok, broken)
    case KBig(b) => ReplyBig(c, b)
    case KNoSlot(e, ok) => Respond(c, Slot, Leave, e, ok)
    case KListCancel => ListCancel(c)
    case KHeader(ok, broken) => SendHeader(c, ok, broken)
    case KFirst(ok) => SendFirst(c, ok)
    case KRead(b, ok, last, failed) => LocalRead(c, b, ok, last, failed)
    case KSendClose(ok) => StopSendClose(c, ok)
    case KUnlistCancel => UnlistCancel(c)
    case KUnlistBody => UnlistBody(c)
    case _ => None
  }

  predicate IsServeAct(a: Act) {
    a.SList? || a.SSend? || a.STimeout? || a.SGet? || a.STake? || a.SEof? || a.SIdleOut?
    || a.SClose? || a.SUnlist? || a.SDone?
  }

  predicate IsClientAct(a: Act) {
    a.LReq? || a.LData? || a.LEnqueue? || a.LStall? || a.LClose? || a.RTake? || a.RCopy? || a.REnd?
  }

  predicate IsReplyAct(a: Act) {
    a.KRefuse? || a.KBegin? || a.KFail? || a.KInline? || a.KBig? || a.KNoSlot?
    || a.KListCancel? || a.KHeader? || a.KFirst?
    || a.KRead? || a.KSendClose? || a.KUnlistCancel? || a.KUnlistBody?
  }

  function Effect(c: Http, a: Act): Option<Out<Http>> {
    if IsServeAct(a) then ServeEffect(c, a)
    else if IsClientAct(a) then ClientEffect(c, a)
    else if IsReplyAct(a) then ReplyEffect(c, a)
    else LoopEffect(c, a)
  }

  // ---- Invariant --------------------------------------------------------

  predicate Unsent(p: ClientPhase) { p == Absent || p == Spawned || p == Doing || p == Slot || p == Header }

  predicate Streaming(p: ClientPhase) { p == Header || p == First || p == Pumping || p == Stop || p == Uncancel }

  /** Every frame of the exchange follows the request, and the request is sent once. */
  ghost predicate Order(s: Server, k: Client, made: bool, down: seq<Msg>, up: seq<Msg>) {
    && (s.phase == Idle ==> s.inbox == EMPTY_INBOX)
    && (s.phase == Idle || s.phase == Listed ==> k.phase == Absent && down == [] && s.pump == NoPump)
    && (k.phase == Absent ==>
          && (down == [] || down[0] == Req(false)) && up == []
          && s.inbox.hand.None? && s.inbox.processed == [])
    && (down != [] ==> Req(false) !in down[1..])
    && (k.phase != Absent ==> Req(false) !in down)
    && (k.phase == Absent || k.phase == Spawned ==> !made && !k.body)
    && (k.phase == Absent ==> k.hand.None?)
    && (k.phase == Absent && s.pump != NoPump ==> down != [])
  }

  /** The response frame: sent once, and whatever is seen of it is what was sent. */
  ghost predicate OneResponse(q: ServerPhase, resp: Option<Response>, p: ClientPhase, d: Reply, up: seq<Msg>) {
    && (Unsent(p) ==> d.res.None?) && d.res != Some(Switching)
    && (forall r :: Res(r) in up ==> d.res == Some(r))
    && (resp.Some? ==> d.res == resp)
    && (d.seen.Some? ==> d.res == d.seen)
    && (q == Idle || q == Listed || q == Await ==> d.seen.None?)
    && (q == Relaying || q == Last ==> d.seen == Some(Streamed))
    && (d.res.Some? && d.res.value.Inline? && d.res.value.genuine ==>
          d.res.value.body == d.body && (p == Leave || p == Ended))
  }

  /** The local body as far as the response frame itself carries it. */
  function Carried(d: Reply): Bytes {
    if d.res.Some? && d.res.value.Inline? && d.res.value.genuine then d.res.value.body else []
  }

  /** The response body: what was read from the local application, sent, processed, taken
      and written to the viewer. */
  ghost predicate BodyOk(q: ServerPhase, inbox: Inbox, p: ClientPhase, d: Reply, up: seq<Msg>) {
    && (Unsent(p) || p == First ==> d.sent == [] && d.unsent == d.body)
    && (p == Pumping ==> d.unsent == [])
    && Carried(d) + Flat(d.sent) + d.unsent == d.body
    && inbox.processed + Datas(up) == d.sent
    && inbox.Valid()
    && (d.seen != Some(Streamed) ==> inbox.taken == [])
    && (d.seen.None? ==> d.viewer == [] && d.torn == [])
    && (d.seen.Some? && d.seen.value.Inline? ==> d.viewer + d.torn == d.seen.value.body)
    && (d.seen == Some(Streamed) ==> d.viewer + d.torn == Flat(inbox.taken))
    && (q == Relaying ==> d.torn == [])
  }

  /** The upload: what was buffered and read, sent, handled, queued and read again. */
  ghost predicate UploadOk(pump: Pump, body: bool, hand: Option<Bytes>, made: bool, h: Sent, down: seq<Msg>) {
    && (pump == NoPump || pump == PumpHead ==> h.sent == [] && h.rest == [] && h.unsent == h.head)
    && (pump == PumpLoop ==> h.unsent == [])
    && Flat(h.sent) + h.unsent == h.head + h.rest
    && h.handled + Datas(down) == h.sent
    && h.lost <= |h.handled|
    && (!made ==> h.lost == |h.handled| && h.queued == [] && hand.None?)
    && h.queued + (if hand.Some? then [hand.value] else []) + h.missed == h.handled[h.lost..]
    && (hand.Some? || body ==> h.missed == [])
  }

  /** Channels: queued bytes are read in order, each channel is closed at most once, and a
      listed channel is open. */
  ghost predicate ChannelsOk(k: Client, u: Upload, queued: seq<Bytes>) {
    && u.got + u.rem + Flat(u.queue) == Flat(queued)
    && u.closes <= 1 && k.cancelCloses <= 1
    && (!u.made ==> u.closes == 0)
    && (k.body || k.hand.Some? ==> u.made && u.closes == 0)
    && (k.cancel ==> k.cancelCloses == 0 && Streaming(k.phase))
    && (!Streaming(k.phase) && k.phase != Leave && k.phase != Ended ==> k.cancelCloses == 0)
    && (u.aborted ==> u.closes == 1)
    && (u.end != Open ==> u.closes == 1 && u.rem == [] && u.queue == [] && (u.end == Aborted <==> u.aborted))
  }

  ghost predicate Inv(c: Http, down: seq<Msg>, up: seq<Msg>) {
    && Order(c.s, c.k, c.u.made, down, up)
    && OneResponse(c.s.phase, c.s.resp, c.k.phase, c.d, up)
    && BodyOk(c.s.phase, c.s.inbox, c.k.phase, c.d, up)
    && UploadOk(c.s.pump, c.k.body, c.k.hand, c.u.made, c.h, down)
    && ChannelsOk(c.k, c.u, c.h.queued)
  }

  lemma {:induction false} InitInv(streamed: bool, head: Bytes)
    ensures Inv(Init(streamed, head), [], [])
  {
  }

  // ---- Every step keeps it ----------------------------------------------

  ghost predicate Keeps(e: Option<Out<Http>>, r: Recv, down: seq<Msg>, up: seq<Msg>) {
    e.Some? && Arrived(r, down, up) ==>
      Inv(e.value.core, After(down, r.FromDown?, e.value.down), After(up, r.FromUp?, e.value.up))
  }

  lemma {:induction false} NoneKeeps(r: Recv, down: seq<Msg>, up: seq<Msg>)
    ensures Keeps(None, r, down, up)
  {
  }

  lemma {:induction false} ListKeeps(c: Http, down: seq<Msg>, up: seq<Msg>)
    requires Inv(c, down, up)
    ensures Keeps(List(c), Nothing, down, up)
  {
    hide Datas, Flat;
  }

  lemma {:induction false} SendReqKeeps(c: Http, ok: bool, down: seq<Msg>, up: seq<Msg>)
    requires Inv(c, down, up)
    ensures Keeps(SendReq(c, ok), Nothing, down, up)
  {
    hide Datas, Flat;
    DatasPush(down, true, Req(false));
  }

  lemma {:induction false} TimeoutKeeps(c: Http, down: seq<Msg>, up: seq<Msg>)
    requires Inv(c, down, up)
    ensures Keeps(Timeout(c), Nothing, down, up)
  {
    hide Datas, Flat;
  }

  lemma {:induction false} GetInlineKeeps(c: Http, n: nat, ok: bool, down: seq<Msg>, up: seq<Msg>)
    requires Inv(c, down, up)
    ensures Keeps(GetInline(c, n, ok), Nothing, down, up)
  {
    hide Datas, Flat;
  }

  lemma {:induction false} GetStreamedKeeps(c: Http, down: seq<Msg>, up: seq<Msg>)
    requires Inv(c, down, up)
    ensures Keeps(GetStreamed(c), Nothing, down, up)
  {
    hide Datas, Flat;
    FlatNone(c.s.inbox.taken);
  }

  lemma {:induction false} TakeKeeps(c: Http, n: nat, ok: bool, down: seq<Msg>, up: seq<Msg>)
    requires Inv(c, down, up)
    ensures Keeps(TakeChunk(c, n, ok), Nothing, down, up)
  {
    hide UploadOk, ChannelsOk, Datas, Flat, Inbox.Valid;
    if c.s.inbox.queue != [] && n <= |c.s.inbox.queue[0]| {
      var q := c.s.inbox.queue[0];
      FlatSnoc(c.s.inbox.taken, q);
      assert q[..n] + q[n..] == q;
      assert c.d.viewer + [] + q == c.d.viewer + q[..n] + ([] + q[n..]);
    }
  }

  lemma {:induction false} SeeEofKeeps(c: Http, down: seq<Msg>, up: seq<Msg>)
    requires Inv(c, down, up)
    ensures Keeps(SeeEof(c), Nothing, down, up)
  {
    hide Datas, Flat;
  }

  lemma {:induction false} IdleOutKeeps(c: Http, down: seq<Msg>, up: seq<Msg>)
    requires Inv(c, down, up)
    ensures Keeps(IdleOut(c), Nothing, down, up)
  {
    hide Datas, Flat;
  }

  lemma {:induction false} SendCloseKeeps(c: Http, ok: bool, down: seq<Msg>, up: seq<Msg>)
    requires Inv(c, down, up)
    ensures Keeps(SendClose(c, ok), Nothing, down, up)
  {
    hide Datas, Flat;
    DatasPush(down, ok, Close);
  }

  lemma {:induction false} UnlistKeeps(c: Http, down: seq<Msg>, up: seq<Msg>)
    requires Inv(c, down, up)
    ensures Keeps(RemovePending(c), Nothing, down, up)
  {
    hide Datas, Flat;
  }

  lemma {:induction false} DoneKeeps(c: Http, down: seq<Msg>, up: seq<Msg>)
    requires Inv(c, down, up)
    ensures Keeps(CloseDone(c), Nothing, down, up)
  {
    hide Datas, Flat;
  }

  lemma {:induction false} SnocBoth(a: seq<Bytes>, b: seq<Bytes>, c: seq<Bytes>, x: Bytes)
    requires a + b == c
    ensures a + (b + [x]) == c + [x]
  {
  }

  lemma {:induction false} ProcessOne(q: ServerPhase, inbox: Inbox, p: ClientPhase, d: Reply, b: Bytes, up: seq<Msg>)
    requires BodyOk(q, inbox, p, d, up) && inbox.hand.None? && up != [] && up[0] == Data(b)
    ensures BodyOk(q, Lookup(inbox, b), p, d, up[1..])
  {
    hide Flat;
    DatasPop(up);
    assert inbox.processed + ([b] + Datas(up[1..])) == inbox.processed + [b] + Datas(up[1..]);
    hide Datas;
  }

  /** One more upload chunk is sent: the buffered head first, then what is read... */
  lemma {:induction false} PumpSends(pump: Pump, q: Pump, body: bool, hand: Option<Bytes>, made: bool, h: Sent,
                                     b: Bytes, eof: bool, broke: bool, down: seq<Msg>)
    requires UploadOk(pump, body, hand, made, h, down) && (q == PumpLoop || q == PumpClose)
    requires (pump == PumpHead && b == h.head) || pump == PumpLoop
    ensures var rest := if pump == PumpHead then h.rest else h.rest + b;
            var unsent := if pump == PumpHead then [] else h.unsent;
            UploadOk(q, body, hand, made,
                     h.(sent := h.sent + [b], unsent := unsent, rest := rest, eof := eof, broke := broke),
                     down + [Data(b)])
  {
    hide Datas, Flat;
    DatasPush(down, true, Data(b));
    FlatSnoc(h.sent, b);
    SnocBoth(h.handled, Datas(down), h.sent, b);
    if pump == PumpHead {
      FlatNone(h.sent);
      assert [] + h.head == h.head + [] == h.head;
    } else {
      assert h.head + h.rest + b == h.head + (h.rest + b);
      assert Flat(h.sent) + [] + b == Flat(h.sent) + b + [];
    }
  }

  /** ... behind the request. */
  lemma {:induction false} PumpOrder(s: Server, q: Pump, k: Client, made: bool, b: Bytes, down: seq<Msg>, up: seq<Msg>)
    requires Order(s, k, made, down, up) && s.pump != NoPump && q != NoPump
    ensures Order(s.(pump := q), k, made, down + [Data(b)], up)
  {
    if down != [] {
      assert (down + [Data(b)])[1..] == down[1..] + [Data(b)];
    }
  }

  /** One more response chunk is sent: the buffered head first, then what is read. */
  lemma {:induction false} ReplySends(q: ServerPhase, inbox: Inbox, p: ClientPhase, p': ClientPhase, d: Reply, b: Bytes,
                                      eof: bool, broke: bool, up: seq<Msg>)
    requires BodyOk(q, inbox, p, d, up) && (p' == Pumping || p' == Stop) && Carried(d) == []
    requires (p == First && b == d.body) || p == Pumping
    ensures var body := if p == First then d.body else d.body + b;
            var unsent := if p == First then [] else d.unsent;
            BodyOk(q, inbox, p', d.(sent := d.sent + [b], unsent := unsent, body := body, eof := eof, broke := broke),
                   up + [Data(b)])
  {
    hide Datas, Flat, Inbox.Valid;
    DatasPush(up, true, Data(b));
    FlatSnoc(d.sent, b);
    SnocBoth(inbox.processed, Datas(up), d.sent, b);
    if p == First {
      FlatNone(d.sent);
      assert [] + ([] + b) + [] == b;
    } else {
      assert [] + (Flat(d.sent) + b) + [] == [] + Flat(d.sent) + [] + b;
    }
  }

  lemma {:induction false} ReplyChannels(k: Client, p: ClientPhase, u: Upload, queued: seq<Bytes>)
    requires ChannelsOk(k, u, queued) && Streaming(k.phase) && Streaming(p)
    ensures ChannelsOk(k.(phase := p), u, queued)
  {
    hide Flat;
  }

  lemma {:induction false} ReplyOrder(s: Server, k: Client, p: ClientPhase, made: bool, b: Bytes, d: Reply, d': Reply,
                                      down: seq<Msg>, up: seq<Msg>)
    requires Order(s, k, made, down, up) && OneResponse(s.phase, s.resp, k.phase, d, up)
    requires !Unsent(k.phase) && !Unsent(p) && k.phase != Leave && k.phase != Ended
    requires d' == d.(sent := d'.sent, unsent := d'.unsent, body := d'.body, eof := d'.eof, broke := d'.broke)
    ensures Order(s, k.(phase := p), made, down, up + [Data(b)]) && Order(s, k.(phase := p), made, down, up)
    ensures OneResponse(s.phase, s.resp, p, d', up + [Data(b)]) && OneResponse(s.phase, s.resp, p, d', up)
  {
  }

  /** Nothing is sent; `b` was read and lost. */
  lemma {:induction false} ReplyQuits(q: ServerPhase, inbox: Inbox, p: ClientPhase, d: Reply, b: Bytes, eof: bool,
                                      broke: bool, up: seq<Msg>)
    requires BodyOk(q, inbox, Pumping, d, up) && (p == Stop || (p == Pumping && b == []))
    ensures BodyOk(q, inbox, p, d.(body := d.body + b, unsent := d.unsent + b, eof := eof, broke := broke), up)
  {
    hide Datas, Flat, Inbox.Valid;
    assert Carried(d) + Flat(d.sent) + d.unsent + b == Carried(d) + Flat(d.sent) + (d.unsent + b);
  }

  /** The pump moves on without sending; `b` was read and lost. */
  lemma {:induction false} PumpQuits(s: Server, q: Pump, k: Client, made: bool, h: Sent, b: Bytes, eof: bool,
                                     broke: bool, down: seq<Msg>, up: seq<Msg>)
    requires UploadOk(s.pump, k.body, k.hand, made, h, down) && Order(s, k, made, down, up)
    requires s.pump == PumpHead || s.pump == PumpLoop
    requires q == PumpClose || (q == PumpLoop && s.pump == PumpLoop && b == [])
    ensures UploadOk(q, k.body, k.hand, made,
                     h.(rest := h.rest + b, unsent := h.unsent + b, eof := eof, broke := broke), down)
    ensures Order(s.(pump := q), k, made, down, up)
    ensures UploadOk(q, k.body, k.hand, made, h.(eof := eof, broke := broke), down) || b != []
  {
    hide Datas, Flat;
    assert h.head + h.rest + b == h.head + (h.rest + b);
    assert Flat(h.sent) + h.unsent + b == Flat(h.sent) + (h.unsent + b);
    assert h.rest + [] == h.rest && h.unsent + [] == h.unsent;
  }

  lemma {:induction false} PumpHeadKeeps(c: Http, ok: bool, down: seq<Msg>, up: seq<Msg>)
    requires Inv(c, down, up)
    ensures Keeps(PumpSendHead(c, ok), Nothing, down, up)
  {
    hide Order, UploadOk, OneResponse, BodyOk, ChannelsOk, Flat, Datas;
    if c.s.pump == PumpHead {
      if ok {
        PumpSends(c.s.pump, PumpLoop, c.k.body, c.k.hand, c.u.made, c.h, c.h.head, c.h.eof, c.h.broke, down);
        PumpOrder(c.s, PumpLoop, c.k, c.u.made, c.h.head, down, up);
      } else {
        PumpQuits(c.s, PumpClose, c.k, c.u.made, c.h, [], c.h.eof, c.h.broke, down, up);
      }
    }
  }

  lemma {:induction false} PumpReadSent(c: Http, b: Bytes, last: bool, failed: bool, down: seq<Msg>, up: seq<Msg>)
    requires Inv(c, down, up) && c.s.pump == PumpLoop && b != []
    ensures Keeps(PumpRead(c, b, true, last, failed), Nothing, down, up)
  {
    hide Order, UploadOk, OneResponse, BodyOk, ChannelsOk, Flat, Datas;
    var q := if last then PumpClose else PumpLoop;
    PumpSends(c.s.pump, q, c.k.body, c.k.hand, c.u.made, c.h, b, last && !failed, c.h.broke || failed,
              down);
    PumpOrder(c.s, q, c.k, c.u.made, b, down, up);
  }

  lemma {:induction false} PumpReadNotSent(c: Http, b: Bytes, ok: bool, last: bool, failed: bool,
                                           down: seq<Msg>, up: seq<Msg>)
    requires Inv(c, down, up) && (b == [] || !ok)
    ensures Keeps(PumpRead(c, b, ok, last, failed), Nothing, down, up)
  {
    hide Order, UploadOk, OneResponse, BodyOk, ChannelsOk, Flat, Datas;
    if c.s.pump == PumpLoop {
      if b == [] {
        PumpQuits(c.s, if last then PumpClose else PumpLoop, c.k, c.u.made, c.h, [], last && !failed,
                  c.h.broke || failed, down, up);
      } else {
        PumpQuits(c.s, PumpClose, c.k, c.u.made, c.h, b, c.h.eof, c.h.broke, down, up);
      }
      assert c.h.rest + [] == c.h.rest;
    }
  }

  lemma {:induction false} PumpReadKeeps(c: Http, b: Bytes, ok: bool, last: bool, failed: bool,
                                         down: seq<Msg>, up: seq<Msg>)
    requires Inv(c, down, up)
    ensures Keeps(PumpRead(c, b, ok, last, failed), Nothing, down, up)
  {
    hide Keeps, Inv;
    if c.s.pump != PumpLoop {
      NoneKeeps(Nothing, down, up);
    } else if ok && b != [] {
      PumpReadSent(c, b, last, failed, down, up);
    } else {
      PumpReadNotSent(c, b, ok, last, failed, down, up);
    }
  }

  lemma {:induction false} PumpStopKeeps(c: Http, down: seq<Msg>, up: seq<Msg>)
    requires Inv(c, down, up)
    ensures Keeps(PumpStop(c), Nothing, down, up)
  {
    hide Datas, Flat;
  }

  lemma {:induction false} PumpCloseKeeps(c: Http, ok: bool, down: seq<Msg>, up: seq<Msg>)
    requires Inv(c, down, up)
    ensures Keeps(PumpSendClose(c, ok), Nothing, down, up)
  {
    hide Datas, Flat;
    DatasPush(down, ok, Close);
  }

  lemma {:induction false} HandleResKeeps(c: Http, r: Response, decodes: bool, down: seq<Msg>, up: seq<Msg>)
    requires Inv(c, down, up)
    ensures Keeps(HandleRes(c, r, decodes), FromUp(Res(r)), down, up)
  {
    hide UploadOk, ChannelsOk, Flat;
    if up != [] {
      DatasPop(up);
    }
    hide Datas;
  }

  lemma {:induction false} LookupKeeps(c: Http, b: Bytes, down: seq<Msg>, up: seq<Msg>)
    requires Inv(c, down, up)
    ensures Keeps(ReceiveLookup(c, b), FromUp(Data(b)), down, up)
  {
    hide UploadOk, ChannelsOk, BodyOk, Flat, Datas;
    if c.s.inbox.hand.None? && Arrived(FromUp(Data(b)), down, up) {
      ProcessOne(c.s.phase, c.s.inbox, c.k.phase, c.d, b, up);
    }
  }

  lemma {:induction false} QueuedKeeps(c: Http, down: seq<Msg>, up: seq<Msg>)
    requires Inv(c, down, up)
    ensures Keeps(ReceiveQueued(c), Nothing, down, up)
  {
    hide Datas, Flat;
  }

  lemma {:induction false} DroppedKeeps(c: Http, down: seq<Msg>, up: seq<Msg>)
    requires Inv(c, down, up)
    ensures Keeps(ReceiveDropped(c), Nothing, down, up)
  {
    hide Datas, Flat;
  }

  lemma {:induction false} StalledKeeps(c: Http, ok: bool, down: seq<Msg>, up: seq<Msg>)
    requires Inv(c, down, up)
    ensures Keeps(ReceiveStalled(c, ok), Nothing, down, up)
  {
    hide Datas, Flat;
    DatasPush(down, ok, Close);
  }

  lemma {:induction false} HandleCloseKeeps(c: Http, down: seq<Msg>, up: seq<Msg>)
    requires Inv(c, down, up)
    ensures Keeps(HandleClose(c), FromUp(Close), down, up)
  {
    hide UploadOk, ChannelsOk, Flat;
    if up != [] {
      DatasPop(up);
    }
    hide Datas;
  }

  lemma {:induction false} CleanupKeeps(c: Http, down: seq<Msg>, up: seq<Msg>)
    requires Inv(c, down, up)
    ensures Keeps(Cleanup(c), Nothing, down, up)
  {
    hide Datas, Flat;
  }

  lemma {:induction false} SpawnParts(c: Http, up: seq<Msg>)
    requires c.k.phase == Absent
    requires OneResponse(c.s.phase, c.s.resp, Absent, c.d, up) && BodyOk(c.s.phase, c.s.inbox, Absent, c.d, up)
    requires ChannelsOk(c.k, c.u, c.h.queued)
    ensures OneResponse(c.s.phase, c.s.resp, Spawned, c.d, up) && BodyOk(c.s.phase, c.s.inbox, Spawned, c.d, up)
    ensures ChannelsOk(c.k.(phase := Spawned), c.u, c.h.queued)
  {
    hide Flat, Datas;
  }

  lemma {:induction false} ClientReqKeeps(c: Http, down: seq<Msg>, up: seq<Msg>)
    requires Inv(c, down, up)
    ensures Keeps(ClientReq(c), FromDown(Req(false)), down, up)
  {
    hide OneResponse, BodyOk, ChannelsOk;
    if c.k.phase == Absent {
      SpawnParts(c, up);
      if down != [] {
        DatasPop(down);
      }
    }
    hide Datas, Flat;
  }

  lemma {:induction false} HandleChunk(pump: Pump, body: bool, made: bool, h: Sent, b: Bytes, down: seq<Msg>)
    requires UploadOk(pump, body, None, made, h, down) && down != [] && down[0] == Data(b) && (body ==> made)
    ensures UploadOk(pump, body, if body then Some(b) else None, made, Handled(body, made, h, b), down[1..])
  {
    hide Datas, Flat;
    DatasPop(down);
    assert h.handled + ([b] + Datas(down[1..])) == h.handled + [b] + Datas(down[1..]);
    assert made ==> (h.handled + [b])[h.lost..] == h.handled[h.lost..] + [b];
    assert (h.handled + [b])[|h.handled| + 1..] == [] == h.handled[|h.handled|..];
    assert h.queued + [] + h.missed + [b] == h.queued + [] + (h.missed + [b]);
  }

  lemma {:induction false} ClientDataKeeps(c: Http, b: Bytes, down: seq<Msg>, up: seq<Msg>)
    requires Inv(c, down, up)
    ensures Keeps(ClientData(c, b), FromDown(Data(b)), down, up)
  {
    if c.k.hand.None? && Arrived(FromDown(Data(b)), down, up) {
      HandleChunk(c.s.pump, c.k.body, c.u.made, c.h, b, down);
      hide UploadOk, OneResponse, BodyOk, Flat, Datas;
    }
  }

  lemma {:induction false} QueueOne(k: Client, u: Upload, queued: seq<Bytes>, x: Bytes)
    requires ChannelsOk(k, u, queued) && k.hand.Some?
    ensures ChannelsOk(k.(hand := None), u.(queue := u.queue + [x]), queued + [x])
  {
    hide Flat;
    FlatSnoc(u.queue, x);
    FlatSnoc(queued, x);
    assert u.got + u.rem + (Flat(u.queue) + x) == u.got + u.rem + Flat(u.queue) + x;
  }

  lemma {:induction false} ClientQueuedKeeps(c: Http, down: seq<Msg>, up: seq<Msg>)
    requires Inv(c, down, up)
    ensures Keeps(ClientQueued(c), Nothing, down, up)
  {
    if c.k.hand.Some? {
      QueueOne(c.k, c.u, c.h.queued, c.k.hand.value);
      hide ChannelsOk, OneResponse, BodyOk, Datas, Flat;
    }
  }

  lemma {:induction false} ClientStalledKeeps(c: Http, down: seq<Msg>, up: seq<Msg>)
    requires Inv(c, down, up)
    ensures Keeps(ClientStalled(c), Nothing, down, up)
  {
    hide Datas, Flat;
  }

  lemma {:induction false} ClientCloseKeeps(c: Http, down: seq<Msg>, up: seq<Msg>)
    requires Inv(c, down, up)
    ensures Keeps(ClientClose(c), FromDown(Close), down, up)
  {
    hide Datas, Flat;
    if down != [] {
      DatasPop(down);
    }
  }

  lemma {:induction false} RespondKeeps(c: Http, from: ClientPhase, to: ClientPhase, e: Bytes, ok: bool,
                                        down: seq<Msg>, up: seq<Msg>)
    requires Inv(c, down, up)
    requires (from == Spawned && to == Ended) || (from == Doing && to == Leave) || (from == Slot && to == Leave)
    ensures Keeps(Respond(c, from, to, e, ok), Nothing, down, up)
  {
    hide Datas, Flat;
    DatasPush(up, ok, Res(Inline(e, false)));
  }

  lemma {:induction false} BeginKeeps(c: Http, down: seq<Msg>, up: seq<Msg>)
    requires Inv(c, down, up)
    ensures Keeps(Begin(c), Nothing, down, up)
  {
    hide Datas, Flat;
    assert c.h.handled[|c.h.handled|..] == [];
  }

  lemma {:induction false} ReplyInlineKeeps(c: Http, b: Bytes, ok: bool, broken: Option<Bytes>, down: seq<Msg>,
                                            up: seq<Msg>)
    requires Inv(c, down, up)
    ensures Keeps(ReplyInline(c, b, ok, broken), Nothing, down, up)
  {
    hide UploadOk, Datas, Flat, Inbox.Valid;
    DatasPush(up, ok, Res(Answer(Inline(b, true), broken)));
    FlatNone(c.d.sent);
  }

  lemma {:induction false} ReplyBigKeeps(c: Http, b: Bytes, down: seq<Msg>, up: seq<Msg>)
    requires Inv(c, down, up)
    ensures Keeps(ReplyBig(c, b), Nothing, down, up)
  {
    hide Datas, Flat;
    FlatNone(c.d.sent);
  }

  lemma {:induction false} ListCancelKeeps(c: Http, down: seq<Msg>, up: seq<Msg>)
    requires Inv(c, down, up)
    ensures Keeps(ListCancel(c), Nothing, down, up)
  {
    hide Datas, Flat;
  }

  lemma {:induction false} SendHeaderKeeps(c: Http, ok: bool, broken: Option<Bytes>, down: seq<Msg>, up: seq<Msg>)
    requires Inv(c, down, up)
    ensures Keeps(SendHeader(c, ok, broken), Nothing, down, up)
  {
    hide Datas, Flat;
    DatasPush(up, ok, Res(Answer(Streamed, broken)));
  }

  lemma {:induction false} NotCarried(q: ServerPhase, resp: Option<Response>, p: ClientPhase, d: Reply, up: seq<Msg>)
    requires OneResponse(q, resp, p, d, up) && p != Leave && p != Ended
    ensures Carried(d) == []
  {
  }

  lemma {:induction false} SendFirstSent(c: Http, down: seq<Msg>, up: seq<Msg>)
    requires Inv(c, down, up) && c.k.phase == First && c.k.cancelCloses == 0
    ensures Keeps(SendFirst(c, true), Nothing, down, up)
  {
    hide Order, UploadOk, OneResponse, BodyOk, ChannelsOk, Flat, Datas;
    var d := c.d.(sent := c.d.sent + [c.d.body], unsent := []);
    NotCarried(c.s.phase, c.s.resp, First, c.d, up);
    ReplySends(c.s.phase, c.s.inbox, First, Pumping, c.d, c.d.body, c.d.eof, c.d.broke, up);
    ReplyOrder(c.s, c.k, Pumping, c.u.made, c.d.body, c.d, d, down, up);
    ReplyChannels(c.k, Pumping, c.u, c.h.queued);
  }

  lemma {:induction false} SendFirstNotSent(c: Http, ok: bool, down: seq<Msg>, up: seq<Msg>)
    requires Inv(c, down, up) && (!ok || c.k.cancelCloses > 0)
    ensures Keeps(SendFirst(c, ok), Nothing, down, up)
  {
    hide UploadOk, Flat, Datas;
  }

  lemma {:induction false} SendFirstKeeps(c: Http, ok: bool, down: seq<Msg>, up: seq<Msg>)
    requires Inv(c, down, up)
    ensures Keeps(SendFirst(c, ok), Nothing, down, up)
  {
    hide Keeps, Inv;
    if c.k.phase != First {
      NoneKeeps(Nothing, down, up);
    } else if ok && c.k.cancelCloses == 0 {
      SendFirstSent(c, down, up);
    } else {
      SendFirstNotSent(c, ok, down, up);
    }
  }

  lemma {:induction false} LocalReadSent(c: Http, b: Bytes, last: bool, failed: bool, down: seq<Msg>, up: seq<Msg>)
    requires Inv(c, down, up) && c.k.phase == Pumping && c.k.cancelCloses == 0 && b != []
    ensures Keeps(LocalRead(c, b, true, last, failed), Nothing, down, up)
  {
    hide Order, UploadOk, OneResponse, BodyOk, ChannelsOk, Flat, Datas;
    var eof := last && !failed;
    var broke := c.d.broke || failed;
    var d := c.d.(body := c.d.body + b, sent := c.d.sent + [b], eof := eof, broke := broke);
    var p := if last then Stop else Pumping;
    NotCarried(c.s.phase, c.s.resp, Pumping, c.d, up);
    ReplySends(c.s.phase, c.s.inbox, Pumping, p, c.d, b, eof, broke, up);
    ReplyOrder(c.s, c.k, p, c.u.made, b, c.d, d, down, up);
    ReplyChannels(c.k, p, c.u, c.h.queued);
  }

  /** The client's goroutine moves on to `p`; what it sends is none of the body. */
  lemma {:induction false} ReplyMoves(c: Http, p: ClientPhase, b: Bytes, eof: bool, broke: bool, down: seq<Msg>,
                                      up: seq<Msg>)
    requires Inv(c, down, up) && c.k.phase == Pumping && (p == Stop || (p == Pumping && b == []))
    ensures forall n :: Inv(c.(k := c.k.(phase := p), n := n,
                              d := c.d.(body := c.d.body + b, eof := eof, unsent := c.d.unsent + b, broke := broke)),
                            down, up)
  {
    hide Order, UploadOk, OneResponse, BodyOk, ChannelsOk, Flat, Datas;
    var d := c.d.(body := c.d.body + b, eof := eof, unsent := c.d.unsent + b, broke := broke);
    ReplyQuits(c.s.phase, c.s.inbox, p, c.d, b, eof, broke, up);
    ReplyOrder(c.s, c.k, p, c.u.made, b, c.d, d, down, up);
    ReplyChannels(c.k, p, c.u, c.h.queued);
  }

  lemma {:induction false} LocalReadNotSent(c: Http, b: Bytes, ok: bool, last: bool, failed: bool, down: seq<Msg>,
                                            up: seq<Msg>)
    requires Inv(c, down, up) && (b == [] || !ok || c.k.cancelCloses > 0)
    ensures Keeps(LocalRead(c, b, ok, last, failed), Nothing, down, up)
  {
    hide Inv;
    if c.k.phase == Pumping {
      assert c.d.body + [] == c.d.body && c.d.unsent + [] == c.d.unsent;
      if b == [] {
        ReplyMoves(c, if last then Stop else Pumping, b, last && !failed, c.d.broke || failed, down, up);
      } else if c.k.cancelCloses > 0 {
        ReplyMoves(c, Stop, b, c.d.eof, c.d.broke || failed, down, up);
      } else {
        ReplyMoves(c, Stop, b, c.d.eof, c.d.broke, down, up);
      }
    }
  }

  lemma {:induction false} LocalReadKeeps(c: Http, b: Bytes, ok: bool, last: bool, failed: bool, down: seq<Msg>,
                                          up: seq<Msg>)
    requires Inv(c, down, up)
    ensures Keeps(LocalRead(c, b, ok, last, failed), Nothing, down, up)
  {
    hide Keeps, Inv;
    if c.k.phase != Pumping {
      NoneKeeps(Nothing, down, up);
    } else if ok && b != [] && c.k.cancelCloses == 0 {
      LocalReadSent(c, b, last, failed, down, up);
    } else {
      LocalReadNotSent(c, b, ok, last, failed, down, up);
    }
  }

  lemma {:induction false} StopCloseKeeps(c: Http, ok: bool, down: seq<Msg>, up: seq<Msg>)
    requires Inv(c, down, up)
    ensures Keeps(StopSendClose(c, ok), Nothing, down, up)
  {
    hide Datas, Flat;
    DatasPush(up, ok, Close);
  }

  lemma {:induction false} UnlistCancelKeeps(c: Http, down: seq<Msg>, up: seq<Msg>)
    requires Inv(c, down, up)
    ensures Keeps(UnlistCancel(c), Nothing, down, up)
  {
    hide Datas, Flat;
  }

  lemma {:induction false} UnlistBodyKeeps(c: Http, down: seq<Msg>, up: seq<Msg>)
    requires Inv(c, down, up)
    ensures Keeps(UnlistBody(c), Nothing, down, up)
  {
    hide Datas, Flat;
  }

  lemma {:induction false} ReaderTakeKeeps(c: Http, down: seq<Msg>, up: seq<Msg>)
    requires Inv(c, down, up)
    ensures Keeps(ReaderTake(c), Nothing, down, up)
  {
    hide Order, UploadOk, OneResponse, BodyOk, Datas;
    if c.u.queue != [] && c.u.rem == [] {
      FlatHead(c.u.queue);
      assert c.u.got + [] == c.u.got;
      assert c.u.got + (c.u.queue[0] + Flat(c.u.queue[1..])) == c.u.got + c.u.queue[0] + Flat(c.u.queue[1..]);
      hide Flat;
    }
  }

  lemma {:induction false} ReaderCopyKeeps(c: Http, n: nat, down: seq<Msg>, up: seq<Msg>)
    requires Inv(c, down, up)
    ensures Keeps(ReaderCopy(c, n), Nothing, down, up)
  {
    hide Order, UploadOk, OneResponse, BodyOk, Datas, Flat;
    if n <= |c.u.rem| {
      assert c.u.got + c.u.rem[..n] + c.u.rem[n..] == c.u.got + c.u.rem;
    }
  }

  lemma {:induction false} ReaderEndKeeps(c: Http, down: seq<Msg>, up: seq<Msg>)
    requires Inv(c, down, up)
    ensures Keeps(ReaderSeeEnd(c), Nothing, down, up)
  {
    hide Order, UploadOk, OneResponse, BodyOk, Datas, Flat;
  }

  lemma {:induction false} ServeStepKeeps(c: Http, a: Act, down: seq<Msg>, up: seq<Msg>)
    requires Inv(c, down, up)
    ensures Keeps(ServeEffect(c, a), Takes(a), down, up)
  {
    hide Keeps, Inv, CloseDone, GetInline, GetStreamed, IdleOut, List, RemovePending, SeeEof, SendClose, SendReq,
         TakeChunk, Timeout;
    match a
    case SList => ListKeeps(c, down, up);
    case SSend(ok) => SendReqKeeps(c, ok, down, up);
    case STimeout => TimeoutKeeps(c, down, up);
    case SGet(n, ok) => GetStreamedKeeps(c, down, up); GetInlineKeeps(c, n, ok, down, up);
    case STake(n, ok) => TakeKeeps(c, n, ok, down, up);
    case SEof => SeeEofKeeps(c, down, up);
    case SIdleOut => IdleOutKeeps(c, down, up);
    case SClose(ok) => SendCloseKeeps(c, ok, down, up);
    case SUnlist => UnlistKeeps(c, down, up);
    case SDone => DoneKeeps(c, down, up);
    case _ => NoneKeeps(Takes(a), down, up);
  }

  lemma {:induction false} LoopStepKeeps(c: Http, a: Act, down: seq<Msg>, up: seq<Msg>)
    requires Inv(c, down, up)
    ensures Keeps(LoopEffect(c, a), Takes(a), down, up)
  {
    hide Keeps, Inv, Cleanup, HandleClose, HandleRes, PumpRead, PumpSendClose, PumpSendHead, PumpStop, ReceiveDropped,
         ReceiveLookup, ReceiveQueued, ReceiveStalled;
    match a
    case PSendHead(ok) => PumpHeadKeeps(c, ok, down, up);
    case PRead(b, ok, last, failed) => PumpReadKeeps(c, b, ok, last, failed, down, up);
    case PStop => PumpStopKeeps(c, down, up);
    case PSendClose(ok) => PumpCloseKeeps(c, ok, down, up);
    case FRes(r, decodes) => HandleResKeeps(c, r, decodes, down, up);
    case FData(b) => LookupKeeps(c, b, down, up);
    case FEnqueue => QueuedKeeps(c, down, up);
    case FDrop => DroppedKeeps(c, down, up);
    case FStall(ok) => StalledKeeps(c, ok, down, up);
    case FClose => HandleCloseKeeps(c, down, up);
    case FCleanup => CleanupKeeps(c, down, up);
    case _ => NoneKeeps(Takes(a), down, up);
  }

  lemma {:induction false} ClientStepKeeps(c: Http, a: Act, down: seq<Msg>, up: seq<Msg>)
    requires Inv(c, down, up)
    ensures Keeps(ClientEffect(c, a), Takes(a), down, up)
  {
    hide Keeps, Inv, ClientClose, ClientData, ClientQueued, ClientReq, ClientStalled, ReaderCopy, ReaderSeeEnd,
         ReaderTake;
    match a
    case LReq => ClientReqKeeps(c, down, up);
    case LData(b) => ClientDataKeeps(c, b, down, up);
    case LEnqueue => ClientQueuedKeeps(c, down, up);
    case LStall => ClientStalledKeeps(c, down, up);
    case LClose => ClientCloseKeeps(c, down, up);
    case RTake => ReaderTakeKeeps(c, down, up);
    case RCopy(n) => ReaderCopyKeeps(c, n, down, up);
    case REnd => ReaderEndKeeps(c, down, up);
    case _ => NoneKeeps(Takes(a), down, up);
  }

  lemma {:induction false} AnswerStepKeeps(c: Http, a: Act, down: seq<Msg>, up: seq<Msg>)
    requires Inv(c, down, up)
    requires a.KRefuse? || a.KBegin? || a.KFail? || a.KInline? || a.KBig? || a.KNoSlot?
    ensures Keeps(ReplyEffect(c, a), Takes(a), down, up)
  {
    hide Keeps, Inv, Begin, ListCancel, LocalRead, ReplyBig, ReplyInline, Respond, SendFirst, SendHeader,
         StopSendClose, UnlistBody, UnlistCancel;
    match a
    case KRefuse(e, ok) => RespondKeeps(c, Spawned, Ended, e, ok, down, up);
    case KBegin => BeginKeeps(c, down, up);
    case KFail(e, ok) => RespondKeeps(c, Doing, Leave, e, ok, down, up);
    case KInline(b, ok, broken) => ReplyInlineKeeps(c, b, ok, broken, down, up);
    case KBig(b) => ReplyBigKeeps(c, b, down, up);
    case KNoSlot(e, ok) => RespondKeeps(c, Slot, Leave, e, ok, down, up);
  }

  lemma {:induction false} ReplyStepKeeps(c: Http, a: Act, down: seq<Msg>, up: seq<Msg>)
    requires Inv(c, down, up)
    ensures Keeps(ReplyEffect(c, a), Takes(a), down, up)
  {
    hide Keeps, Inv, Begin, ListCancel, LocalRead, ReplyBig, ReplyInline, Respond, SendFirst, SendHeader,
         StopSendClose, UnlistBody, UnlistCancel;
    match a
    case KListCancel => ListCancelKeeps(c, down, up);
    case KHeader(ok, broken) => SendHeaderKeeps(c, ok, broken, down, up);
    case KFirst(ok) => SendFirstKeeps(c, ok, down, up);
    case KRead(b, ok, last, failed) => LocalReadKeeps(c, b, ok, last, failed, down, up);
    case KSendClose(ok) => StopCloseKeeps(c, ok, down, up);
    case KUnlistCancel => UnlistCancelKeeps(c, down, up);
    case KUnlistBody => UnlistBodyKeeps(c, down, up);
    case KRefuse(_, _) | KBegin | KFail(_, _) | KInline(_, _, _) | KBig(_) | KNoSlot(_, _) =>
      AnswerStepKeeps(c, a, down, up);
    case _ => NoneKeeps(Takes(a), down, up);
  }

  /** Every step of either side keeps the invariant. */
  lemma {:induction false} StepKeeps(c: Http, a: Act, down: seq<Msg>, up: seq<Msg>)
    requires Inv(c, down, up)
    ensures Keeps(Effect(c, a), Takes(a), down, up)
  {
    hide Keeps, Inv, ServeEffect, LoopEffect, ClientEffect, ReplyEffect;
    if IsServeAct(a) {
      ServeStepKeeps(c, a, down, up);
    } else if IsClientAct(a) {
      ClientStepKeeps(c, a, down, up);
    } else if IsReplyAct(a) {
      ReplyStepKeeps(c, a, down, up);
    } else {
      LoopStepKeeps(c, a, down, up);
    }
  }

  // ---- What the invariant promises --------------------------------------

  /** Where every byte read from the local application is, in every state: in the response frame,
      written to the viewer, left over by a failed write, queued, in hand, given up by the frame
      loop, on the link, or not sent. */
  lemma {:induction false} ReplyAccount(c: Http, down: seq<Msg>, up: seq<Msg>)
    requires Inv(c, down, up)
    ensures c.d.seen == Some(Streamed) ==>
              var b := c.s.inbox;
              c.d.body == c.d.viewer + c.d.torn + Flat(b.queue) + InHand(b.hand) + Flat(b.refused) + Flat(Datas(up))
                          + c.d.unsent
    ensures c.d.seen.Some? && c.d.seen.value.Inline? && c.d.seen.value.genuine ==> c.d.body == c.d.viewer + c.d.torn
  {
    hide Flat, Datas, Order, UploadOk, ChannelsOk;
    FlatAppend(c.s.inbox.processed, Datas(up));
    InboxFlat(c.s.inbox);
    assert [] + Flat(c.d.sent) == Flat(c.d.sent);
  }

  /** And every byte of the upload: handled before registration, read by the local application or
      waiting for it, in hand, handled after the stream's end, on the link, or not sent. */
  lemma {:induction false} UploadAccount(c: Http, down: seq<Msg>, up: seq<Msg>)
    requires Inv(c, down, up)
    ensures c.h.lost <= |c.h.handled|
    ensures c.h.head + c.h.rest == Flat(c.h.handled[..c.h.lost]) + c.u.got + c.u.rem + Flat(c.u.queue)
                                   + InHand(c.k.hand) + Flat(c.h.missed) + Flat(Datas(down)) + c.h.unsent
  {
    hide Flat, Datas, Order, OneResponse, BodyOk;
    var hand := if c.k.hand.Some? then [c.k.hand.value] else [];
    FlatAppend(c.h.handled, Datas(down));
    FlatAppend(c.h.handled[..c.h.lost], c.h.handled[c.h.lost..]);
    assert c.h.handled[..c.h.lost] + c.h.handled[c.h.lost..] == c.h.handled;
    FlatAppend(c.h.queued + hand, c.h.missed);
    FlatAppend(c.h.queued, hand);
    FlatOne(c.k.hand);
  }

  /** In every state a run can reach, the viewer has a prefix of the body it was promised:
      of the local response, or of the error text that replaced it. */
  lemma {:induction false} ViewerPromise(c: Http, down: seq<Msg>, up: seq<Msg>)
    requires Inv(c, down, up)
    ensures c.d.seen.None? ==> c.d.viewer == []
    ensures c.d.seen == Some(Streamed) ==> c.d.viewer <= c.d.body
    ensures c.d.seen.Some? && c.d.seen.value.Inline? ==>
              c.d.viewer <= c.d.seen.value.body && (c.d.seen.value.genuine ==> c.d.seen.value.body == c.d.body)
    ensures c.s.inbox.taken <= c.s.inbox.processed
  {
    hide Flat, Datas, Order, UploadOk, ChannelsOk;
    ReplyAccount(c, down, up);
  }

  /** The local application reads, in order and without gaps, the upload after the chunks
      that came before its stream was registered; an end it sees as clean leaves nothing
      queued. */
  lemma {:induction false} UploadPromise(c: Http, down: seq<Msg>, up: seq<Msg>)
    requires Inv(c, down, up)
    ensures c.h.lost <= |c.h.handled| && c.u.got <= Flat(c.h.handled[c.h.lost..])
    ensures Flat(c.h.handled[..c.h.lost]) == [] ==> c.u.got <= c.h.head + c.h.rest
    ensures c.u.end == Eof ==> c.u.got == Flat(c.h.queued) && !c.u.aborted
    ensures c.u.end == Aborted ==> c.u.aborted
  {
    hide Flat, Datas, Order, OneResponse, BodyOk;
    FlatPrefix(c.h.queued, c.h.handled[c.h.lost..]);
    UploadAccount(c, down, up);
    FlatNone(c.u.queue);
    assert c.u.end == Eof ==> c.u.got + [] + [] == c.u.got;
  }

  /** No channel is closed twice; an ID in a table has open channels. */
  lemma {:induction false} ChannelPromise(c: Http, down: seq<Msg>, up: seq<Msg>)
    requires Inv(c, down, up)
    ensures c.u.closes <= 1 && c.k.cancelCloses <= 1
    ensures c.k.body ==> c.u.made && c.u.closes == 0
    ensures c.k.cancel ==> c.k.cancelCloses == 0
    ensures c.s.inbox.listed ==> !c.s.inbox.closed && !c.s.inbox.done
  {
    hide Flat, Datas, Order, OneResponse, UploadOk;
  }

  // ---- What a step sends, and what it does to the tables ------------------

  predicate DownKind(m: Msg) { m == Req(false) || m.Data? || m == Close }

  predicate UpKind(m: Msg) { m.Res? || m.Data? || m == Close }

  /** Only frames of its kind are sent, only the opening frame makes the client begin, and the
      client's two entries come and go with the steps that say so. */
  ghost predicate Told(c: Http, a: Act, e: Option<Out<Http>>) {
    e.Some? ==>
      && (forall m :: m in e.value.down ==> DownKind(m)) && (forall m :: m in e.value.up ==> UpKind(m))
      && (c.k.phase == Absent && e.value.core.k.phase != Absent ==> Takes(a) == FromDown(Req(false)))
      && (e.value.core.k.phase == Absent ==> c.k.phase == Absent)
      && (a.KBegin? ==> c.k.phase == Spawned)
      && e.value.core.k.body ==
           (if a.KBegin? then c.h.streamed else c.k.body && !(a.KUnlistBody? || a.LStall? || a.LClose?))
      && e.value.core.k.cancel == (a.KListCancel? || (c.k.cancel && !a.KUnlistCancel? && !(a.LClose? && !c.k.body)))
  }

  lemma {:induction false} ServeTold(c: Http, a: Act)
    ensures Told(c, a, ServeEffect(c, a))
  {
  }

  lemma {:induction false} LoopTold(c: Http, a: Act)
    ensures Told(c, a, LoopEffect(c, a))
  {
  }

  lemma {:induction false} ClientTold(c: Http, a: Act)
    ensures Told(c, a, ClientEffect(c, a))
  {
  }

  lemma {:induction false} ReplyTold(c: Http, a: Act)
    ensures Told(c, a, ReplyEffect(c, a))
  {
  }

  lemma {:induction false} StepTold(c: Http, a: Act)
    ensures Told(c, a, Effect(c, a))
  {
    hide Told, ServeEffect, LoopEffect, ClientEffect, ReplyEffect;
    ServeTold(c, a);
    LoopTold(c, a);
    ClientTold(c, a);
    ReplyTold(c, a);
  }

  // ---- No frame of its kind blocks a link ---------------------------------

  /** The steps that take a frame from the link to the client, and to the server. */
  function DownAct(m: Msg): Act { match m case Data(b) => LData(b) case Close => LClose case _ => LReq }

  function UpAct(m: Msg): Act { match m case Data(b) => FData(b) case Res(r) => FRes(r, true) case _ => FClose }

  lemma {:induction false} HeadTaken(c: Http, down: seq<Msg>, up: seq<Msg>)
    requires Inv(c, down, up) && down != [] && DownKind(down[0]) && c.k.hand.None?
    ensures Takes(DownAct(down[0])) == FromDown(down[0]) && Effect(c, DownAct(down[0])).Some?
  {
    hide OneResponse, BodyOk, UploadOk, ChannelsOk, ServeEffect, ReplyEffect, LoopEffect;
    assert down[0] in down;
    assert down[0] == Req(false) ==> c.k.phase == Absent;
    hide Inv;
  }

  lemma {:induction false} UpTaken(c: Http, m: Msg)
    requires UpKind(m) && c.s.inbox.hand.None?
    ensures Takes(UpAct(m)) == FromUp(m) && Effect(c, UpAct(m)).Some?
  {
  }

  /** A loop that is busy with a payload can give it up. */
  lemma {:induction false} HandFreed(c: Http)
    ensures c.k.hand.Some? ==>
              var e := Effect(c, LStall); Takes(LStall) == Nothing && e.Some? && e.value.core.k.hand.None?
    ensures c.s.inbox.hand.Some? ==>
              var e := Effect(c, FStall(true));
              Takes(FStall(true)) == Nothing && e.Some? && e.value.core.s.inbox.hand.None?
  {
  }
}
