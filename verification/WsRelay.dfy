/**
 One upgraded connection: serveWebSocket with its two goroutines and the frame loop on the
 server, handleWebSocketReq and the frame loop on the client. The client answers the upgrade
 before it registers its relay, so data the server reads in between is handled early and
 dropped; from the first chunk after registration on, nothing is lost in the middle.
 */
module WsRelay {
  import opened Basics
  import opened Link

  datatype ServerPhase = Idle | Listed | Waiting | Relaying | Leaving | Unlisted | Gone
  datatype Reader = NotYet | Running | Closing | Stopped
  datatype ClientPhase = Absent | Spawned | Switched | Reading | Exiting | ExitDone | ExitOff | Ended

  /** `reader` pumps the viewer's bytes to the client, `drain` the client's to the viewer. */
  datatype Server = Server(phase: ServerPhase, inbox: Inbox, resp: Option<Response>, reader: Reader, drain: Reader)

  datatype Client = Client(phase: ClientPhase, relay: bool, done: bool, hand: Option<Bytes>, everRelay: bool)

  /** Histories, viewer to local. `unsent` was read and not sent, `lost` counts the chunks handled
      before registration, `torn` is what a failed write left, and `missed` holds the chunks
      handled after the relay's end. */
  datatype Inward = Inward(read: Bytes, sent: seq<Bytes>, unsent: Bytes, handled: seq<Bytes>, lost: nat,
                           written: Bytes, torn: Bytes, missed: seq<Bytes>)

  /** Histories, local to viewer. */
  datatype Outward = Outward(read: Bytes, sent: seq<Bytes>, unsent: Bytes, written: Bytes, torn: Bytes)

  datatype Ws = Ws(s: Server, k: Client, i: Inward, o: Outward)

  function Init(): Ws {
    Ws(Server(Idle, EMPTY_INBOX, None, NotYet, NotYet), Client(Absent, false, false, None, false),
       Inward([], [], [], [], 0, [], [], []), Outward([], [], [], [], []))
  }

  datatype Act =
    // serveWebSocket and its two goroutines
    | SList | SSend(ok: bool) | STimeout | SGet(ok: bool) | SLeave | SUnlist | SDone
    | RRead(b: Bytes, ok: bool) | REnd(b: Bytes) | RClose(ok: bool) | DWrite(n: nat, ok: bool) | DStop
    // the server's frame loop
    | FRes(r: Response, decodes: bool) | FData(b: Bytes) | FEnqueue | FDrop | FStall(ok: bool) | FClose | FCleanup
    // the client's frame loop
    | LReq | LData(b: Bytes) | LWrite(n: nat, ok: bool) | LClose | LShut
    // handleWebSocketReq
    | KRefuse(e: Bytes, ok: bool) | KSwitch(ok: bool, broken: Option<Bytes>) | KRegister
    | KRead(b: Bytes, ok: bool) | KEnd(b: Bytes)
    | KDone | KOff | KClose(ok: bool)

  function Takes(a: Act): Recv {
    match a
    case FRes(r, _) => FromUp(Res(r))
    case FData(b) => FromUp(Data(b))
    case FClose => FromUp(Close)
    case LReq => FromDown(Req(true))
    case LData(b) => FromDown(Data(b))
    case LClose => FromDown(Close)
    case _ => Nothing
  }

  // ---- serveWebSocket ---------------------------------------------------

  function List(c: Ws): Option<Out<Ws>> {
    if c.s.phase == Idle && c.s.inbox == EMPTY_INBOX
    then Just(c.(s := c.s.(phase := Listed, inbox := Enlist(c.s.inbox)))) else None
  }

  function SendReq(c: Ws, ok: bool): Option<Out<Ws>> {
    if c.s.phase != Listed then None
    else Some(Out(c.(s := c.s.(phase := if ok then Waiting else Leaving)), Push(ok, Req(true)), []))
  }

  function Timeout(c: Ws): Option<Out<Ws>> {
    if c.s.phase == Waiting then Just(c.(s := c.s.(phase := Leaving))) else None
  }

  /** A response other than a switch is relayed as it is; on a switch the connection is taken
      over, or that fails. */
  function Get(c: Ws, ok: bool): Option<Out<Ws>> {
    if c.s.phase != Waiting || c.s.resp.None? then None
    else if c.s.resp.value == Switching && ok
    then Just(c.(s := c.s.(phase := Relaying, reader := Running, drain := Running)))
    else Just(c.(s := c.s.(phase := Leaving)))
  }

  function Leave(c: Ws): Option<Out<Ws>> {
    if c.s.phase == Relaying && c.s.reader == Stopped && c.s.drain == Stopped
    then Just(c.(s := c.s.(phase := Leaving))) else None
  }

  function RemovePending(c: Ws): Option<Out<Ws>> {
    if c.s.phase == Leaving then Just(c.(s := c.s.(phase := Unlisted, inbox := Unlist(c.s.inbox)))) else None
  }

  function CloseDone(c: Ws): Option<Out<Ws>> {
    if c.s.phase == Unlisted && !c.s.inbox.listed
    then Just(c.(s := c.s.(phase := Gone, inbox := MarkDone(c.s.inbox)))) else None
  }

  function ViewerRead(c: Ws, b: Bytes, ok: bool): Option<Out<Ws>> {
    if c.s.reader != Running || |b| > STREAM_BUF_SIZE then None
    else if ok then Some(Out(c.(i := c.i.(read := c.i.read + b, sent := c.i.sent + [b])), [Data(b)], []))
    else ViewerEnd(c, b)
  }

  /** The read fails, or sending does: the bytes that came are dropped. */
  function ViewerEnd(c: Ws, b: Bytes): Option<Out<Ws>> {
    if c.s.reader != Running then None
    else Just(c.(s := c.s.(reader := Closing), i := c.i.(read := c.i.read + b, unsent := c.i.unsent + b)))
  }

  function SendClose(c: Ws, ok: bool): Option<Out<Ws>> {
    if c.s.reader != Closing then None
    else Some(Out(c.(s := c.s.(reader := Stopped)), Push(ok, Close), []))
  }

  function DrainWrite(c: Ws, n: nat, ok: bool): Option<Out<Ws>> {
    var q := c.s.inbox.queue;
    if c.s.drain != Running || q == [] || n > |q[0]| || (ok && n < |q[0]|) then None
    else Just(c.(s := c.s.(inbox := Take(c.s.inbox), drain := if ok then Running else Stopped),
                 o := c.o.(written := c.o.written + q[0][..n], torn := c.o.torn + q[0][n..])))
  }

  /** The drain ends with its channel, and with nothing else. */
  function DrainStop(c: Ws): Option<Out<Ws>> {
    if c.s.drain == Running && c.s.inbox.closed && c.s.inbox.queue == []
    then Just(c.(s := c.s.(drain := Stopped))) else None
  }

  // ---- The server's frame loop ------------------------------------------

  function HandleRes(c: Ws, r: Response, decodes: bool): Option<Out<Ws>> {
    if c.s.inbox.hand.Some? then None
    else if decodes && c.s.inbox.listed && c.s.resp.None? then Just(c.(s := c.s.(resp := Some(r))))
    else Just(c)
  }

  function ReceiveLookup(c: Ws, b: Bytes): Option<Out<Ws>> {
    if c.s.inbox.hand.None? then Just(c.(s := c.s.(inbox := Lookup(c.s.inbox, b)))) else None
  }

  function ReceiveQueued(c: Ws): Option<Out<Ws>> {
    if c.s.inbox.hand.Some? && !c.s.inbox.closed && |c.s.inbox.queue| < STREAM_RELAY_BUF
    then Just(c.(s := c.s.(inbox := Enqueue(c.s.inbox)))) else None
  }

  function ReceiveDropped(c: Ws): Option<Out<Ws>> {
    if c.s.inbox.hand.Some? && (c.s.inbox.done || c.s.inbox.closed)
    then Just(c.(s := c.s.(inbox := Drop(c.s.inbox)))) else None
  }

  function ReceiveStalled(c: Ws, ok: bool): Option<Out<Ws>> {
    if c.s.inbox.hand.Some?
    then Some(Out(c.(s := c.s.(inbox := Stall(c.s.inbox))), Push(ok, Close), [])) else None
  }

  function HandleClose(c: Ws): Option<Out<Ws>> {
    if c.s.inbox.hand.None? then Just(c.(s := c.s.(inbox := PeerClose(c.s.inbox)))) else None
  }

  function Cleanup(c: Ws): Option<Out<Ws>> { Just(c.(s := c.s.(inbox := CleanUp(c.s.inbox)))) }

  // ---- The client's frame loop ------------------------------------------

  function ClientReq(c: Ws): Option<Out<Ws>> {
    if c.k.hand.None? && c.k.phase == Absent then Just(c.(k := c.k.(phase := Spawned))) else None
  }

  /** Data for this ID is written to the local connection. */
  predicate Live(k: Client) { k.relay && !k.done }

  function Handled(k: Client, i: Inward, b: Bytes): Inward {
    i.(handled := i.handled + [b], lost := if k.everRelay then i.lost else i.lost + 1,
       missed := if k.everRelay && !Live(k) then i.missed + [b] else i.missed)
  }

  /** A chunk for an unregistered relay is dropped. */
  function ClientData(c: Ws, b: Bytes): Option<Out<Ws>> {
    if c.k.hand.Some? then None
    else Just(c.(i := Handled(c.k, c.i, b), k := c.k.(hand := if Live(c.k) then Some(b) else None)))
  }

  function ClientWrite(c: Ws, n: nat, ok: bool): Option<Out<Ws>> {
    if c.k.hand.None? || n > |c.k.hand.value| || (ok && n < |c.k.hand.value|) then None
    else Just(c.(i := c.i.(written := c.i.written + c.k.hand.value[..n], torn := c.i.torn + c.k.hand.value[n..]),
                 k := c.k.(hand := None, done := c.k.done || !ok)))
  }

  /** A close for an unregistered relay is dropped as well. */
  function ClientClose(c: Ws): Option<Out<Ws>> {
    if c.k.hand.Some? then None
    else Just(c.(k := c.k.(relay := false, done := c.k.done || c.k.relay)))
  }

  /** Tunnel.Close. */
  function ClientShut(c: Ws): Option<Out<Ws>> {
    Just(c.(k := c.k.(relay := false, done := c.k.done || c.k.relay)))
  }

  // ---- handleWebSocketReq -----------------------------------------------

  /** No slot, an error, or the local application's refusal, whose body is not relayed. */
  function Refuse(c: Ws, e: Bytes, ok: bool): Option<Out<Ws>> {
    if c.k.phase != Spawned then None
    else Some(Out(c.(k := c.k.(phase := Ended)), [], Push(ok, Res(Inline(e, false)))))
  }

  /** The answer goes out first, or an error text when encoding it failed... */
  function Switch(c: Ws, ok: bool, broken: Option<Bytes>): Option<Out<Ws>> {
    if c.k.phase != Spawned then None
    else Some(Out(c.(k := c.k.(phase := Switched)), [],
                  Push(ok, Res(if broken.None? then Switching else Inline(broken.value, false)))))
  }

  /** ... and then the relay is registered. */
  function Register(c: Ws): Option<Out<Ws>> {
    if c.k.phase == Switched then Just(c.(k := c.k.(phase := Reading, relay := true, everRelay := true))) else None
  }

  function LocalRead(c: Ws, b: Bytes, ok: bool): Option<Out<Ws>> {
    if c.k.phase != Reading || |b| > STREAM_BUF_SIZE then None
    else if ok then Some(Out(c.(o := c.o.(read := c.o.read + b, sent := c.o.sent + [b])), [], [Data(b)]))
    else LocalEnd(c, b)
  }

  /** The same on the client. */
  function LocalEnd(c: Ws, b: Bytes): Option<Out<Ws>> {
    if c.k.phase != Reading then None
    else Just(c.(k := c.k.(phase := Exiting), o := c.o.(read := c.o.read + b, unsent := c.o.unsent + b)))
  }

  function ExitCloseDone(c: Ws): Option<Out<Ws>> {
    if c.k.phase == Exiting then Just(c.(k := c.k.(phase := ExitDone, done := true))) else None
  }

  function ExitUnregister(c: Ws): Option<Out<Ws>> {
    if c.k.phase == ExitDone then Just(c.(k := c.k.(phase := ExitOff, relay := false))) else None
  }

  function ExitSendClose(c: Ws, ok: bool): Option<Out<Ws>> {
    if c.k.phase != ExitOff then None
    else Some(Out(c.(k := c.k.(phase := Ended)), [], Push(ok, Close)))
  }

  // ---- Steps ------------------------------------------------------------

  function ServeEffect(c: Ws, a: Act): Option<Out<Ws>> {
    match a
    case SList => List(c)
    case SSend(ok) => SendReq(c, ok)
    case STimeout => Timeout(c)
    case SGet(ok) => Get(c, ok)
    case SLeave => Leave(c)
    case SUnlist => RemovePending(c)
    case SDone => CloseDone(c)
    case RRead(b, ok) => ViewerRead(c, b, ok)
    case REnd(b) => ViewerEnd(c, b)
    case RClose(ok) => SendClose(c, ok)
    case DWrite(n, ok) => DrainWrite(c, n, ok)
    case DStop => DrainStop(c)
    case _ => None
  }

  function LoopEffect(c: Ws, a: Act): Option<Out<Ws>> {
    match a
    case FRes(r, decodes) => HandleRes(c, r, decodes)
    case FData(b) => ReceiveLookup(c, b)
    case FEnqueue => ReceiveQueued(c)
    case FDrop => ReceiveDropped(c)
    case FStall(ok) => ReceiveStalled(c, ok)
    case FClose => HandleClose(c)
    case FCleanup => Cleanup(c)
    case LReq => ClientReq(c)
    case LData(b) => ClientData(c, b)
    case LWrite(n, ok) => ClientWrite(c, n, ok)
    case LClose => ClientClose(c)
    case LShut => ClientShut(c)
    case _ => None
  }

  function LocalEffect(c: Ws, a: Act): Option<Out<Ws>> {
    match a
    case KRefuse(e, ok) => Refuse(c, e, ok)
    case KSwitch(ok, broken) => Switch(c, ok, broken)
    case KRegister => Register(c)
    case KRead(b, ok) => LocalRead(c, b, ok)
    case KEnd(b) => LocalEnd(c, b)
    case KDone => ExitCloseDone(c)
    case KOff => ExitUnregister(c)
    case KClose(ok) => ExitSendClose(c, ok)
    case _ => None
  }

  predicate IsServeAct(a: Act) {
    || a.SList? || a.SSend? || a.STimeout? || a.SGet? || a.SLeave? || a.SUnlist? || a.SDone?
    || a.RRead? || a.REnd? || a.RClose? || a.DWrite? || a.DStop?
  }

  predicate IsLocalAct(a: Act) {
    a.KRefuse? || a.KSwitch? || a.KRegister? || a.KRead? || a.KEnd? || a.KDone? || a.KOff? || a.KClose?
  }

  function Effect(c: Ws, a: Act): Option<Out<Ws>> {
    if IsServeAct(a) then ServeEffect(c, a) else if IsLocalAct(a) then LocalEffect(c, a) else LoopEffect(c, a)
  }

  // ---- Invariant --------------------------------------------------------

  predicate Before(p: ClientPhase) { p == Absent || p == Spawned }

  predicate Early(p: ClientPhase) { Before(p) || p == Switched }

  /** Nothing of the relay exists before the client has answered. */
  ghost predicate Order(s: Server, k: Client, down: seq<Msg>, up: seq<Msg>) {
    && (s.phase == Idle ==> s.inbox == EMPTY_INBOX)
    && (s.phase == Idle || s.phase == Listed ==> k.phase == Absent && down == [])
    && (s.phase != Relaying && s.phase != Leaving && s.phase != Unlisted && s.phase != Gone ==>
          s.reader == NotYet && s.drain == NotYet)
    && (k.phase == Absent ==> down == [] || down == [Req(true)])
    && (k.phase != Absent ==> Req(true) !in down)
    && (Before(k.phase) ==>
          && up == [] && s.resp.None? && s.reader == NotYet
          && s.inbox.hand.None? && s.inbox.processed == [] && k.hand.None?)
  }

  /** Viewer to local. */
  ghost predicate InwardOk(reader: Reader, k: Client, i: Inward, down: seq<Msg>) {
    && (reader == NotYet ==> i.sent == [] && i.read == [])
    && (reader == NotYet || reader == Running ==> i.unsent == [])
    && Flat(i.sent) + i.unsent == i.read
    && i.handled + Datas(down) == i.sent
    && i.lost <= |i.handled|
    && (!k.everRelay ==> i.lost == |i.handled| && i.missed == [] && k.hand.None? && !k.relay && !k.done)
    && (Early(k.phase) ==> !k.everRelay) && (!Early(k.phase) && k.phase != Ended ==> k.everRelay)
    && Accounted(Flat(i.handled[i.lost..]), i.written, k.hand, i.torn, i.missed, Live(k))
  }

  /** Local to viewer. */
  ghost predicate OutwardOk(p: ClientPhase, inbox: Inbox, drain: Reader, o: Outward, up: seq<Msg>) {
    && (Early(p) ==> o.sent == [] && o.read == [])
    && (Early(p) || p == Reading ==> o.unsent == [])
    && Flat(o.sent) + o.unsent == o.read
    && inbox.processed + Datas(up) == o.sent
    && inbox.Valid()
    && (drain == NotYet ==> inbox.taken == [])
    && o.written + o.torn == Flat(inbox.taken)
    && (drain != Stopped ==> o.torn == [])
  }

  ghost predicate Inv(c: Ws, down: seq<Msg>, up: seq<Msg>) {
    && Order(c.s, c.k, down, up)
    && InwardOk(c.s.reader, c.k, c.i, down)
    && OutwardOk(c.k.phase, c.s.inbox, c.s.drain, c.o, up)
  }

  lemma {:induction false} InitInv()
    ensures Inv(Init(), [], [])
  {
  }

  // ---- Every step keeps it ----------------------------------------------

  ghost predicate Keeps(e: Option<Out<Ws>>, r: Recv, down: seq<Msg>, up: seq<Msg>) {
    e.Some? && Arrived(r, down, up) ==>
      Inv(e.value.core, After(down, r.FromDown?, e.value.down), After(up, r.FromUp?, e.value.up))
  }

  lemma {:induction false} NoneKeeps(r: Recv, down: seq<Msg>, up: seq<Msg>)
    ensures Keeps(None, r, down, up)
  {
  }

  lemma {:induction false} ListKeeps(c: Ws, down: seq<Msg>, up: seq<Msg>)
    requires Inv(c, down, up)
    ensures Keeps(List(c), Nothing, down, up) && Keeps(Timeout(c), Nothing, down, up)
  {
    hide Datas, Flat;
  }

  lemma {:induction false} SendReqKeeps(c: Ws, ok: bool, down: seq<Msg>, up: seq<Msg>)
    requires Inv(c, down, up)
    ensures Keeps(SendReq(c, ok), Nothing, down, up)
  {
    hide Datas, Flat;
    DatasPush(down, ok, Req(true));
  }

  lemma {:induction false} GetKeeps(c: Ws, ok: bool, down: seq<Msg>, up: seq<Msg>)
    requires Inv(c, down, up)
    ensures Keeps(Get(c, ok), Nothing, down, up) && Keeps(Leave(c), Nothing, down, up)
  {
    hide Datas, Flat;
    FlatNone(c.i.sent);
  }

  lemma {:induction false} UnlistKeeps(c: Ws, down: seq<Msg>, up: seq<Msg>)
    requires Inv(c, down, up)
    ensures Keeps(RemovePending(c), Nothing, down, up) && Keeps(CloseDone(c), Nothing, down, up)
  {
    hide Datas, Flat, InwardOk;
  }

  lemma {:induction false} SendHistory(reader: Reader, k: Client, i: Inward, b: Bytes, down: seq<Msg>)
    requires InwardOk(reader, k, i, down) && reader == Running
    ensures InwardOk(reader, k, i.(read := i.read + b, sent := i.sent + [b]), down + [Data(b)])
    ensures InwardOk(Closing, k, i.(read := i.read + b, unsent := i.unsent + b), down)
  {
    hide Datas, Flat, Accounted;
    DatasPush(down, true, Data(b));
    FlatSnoc(i.sent, b);
    assert i.handled + (Datas(down) + [b]) == i.sent + [b];
    assert Flat(i.sent) + [] + b == Flat(i.sent) + b + [] == Flat(i.sent) + ([] + b);
  }

  lemma {:induction false} ViewerReadKeeps(c: Ws, b: Bytes, ok: bool, down: seq<Msg>, up: seq<Msg>)
    requires Inv(c, down, up)
    ensures Keeps(ViewerRead(c, b, ok), Nothing, down, up) && Keeps(ViewerEnd(c, b), Nothing, down, up)
  {
    hide InwardOk, OutwardOk, Flat, Datas;
    if c.s.reader == Running {
      SendHistory(c.s.reader, c.k, c.i, b, down);
    }
  }

  lemma {:induction false} SendCloseKeeps(c: Ws, ok: bool, down: seq<Msg>, up: seq<Msg>)
    requires Inv(c, down, up)
    ensures Keeps(SendClose(c, ok), Nothing, down, up)
  {
    hide Datas, Flat, OutwardOk;
    DatasPush(down, ok, Close);
  }

  lemma {:induction false} DrainOutward(p: ClientPhase, inbox: Inbox, o: Outward, n: nat, ok: bool, up: seq<Msg>)
    requires OutwardOk(p, inbox, Running, o, up)
    requires inbox.queue != [] && n <= |inbox.queue[0]| && (ok ==> n == |inbox.queue[0]|)
    ensures var q := inbox.queue[0];
            OutwardOk(p, Take(inbox), if ok then Running else Stopped,
                      o.(written := o.written + q[..n], torn := o.torn + q[n..]), up)
  {
    hide Datas, Flat, Inbox.Valid;
    var q := inbox.queue[0];
    FlatSnoc(inbox.taken, q);
    assert q[..n] + q[n..] == q;
    assert o.written + [] + q == o.written + q[..n] + ([] + q[n..]);
  }

  lemma {:induction false} DrainKeeps(c: Ws, n: nat, ok: bool, down: seq<Msg>, up: seq<Msg>)
    requires Inv(c, down, up)
    ensures Keeps(DrainWrite(c, n, ok), Nothing, down, up)
  {
    hide Datas, Flat, InwardOk, OutwardOk, Inbox.Valid;
    var q := c.s.inbox.queue;
    if c.s.drain == Running && q != [] && n <= |q[0]| && (ok ==> n == |q[0]|) {
      DrainOutward(c.k.phase, c.s.inbox, c.o, n, ok, up);
    }
  }

  lemma {:induction false} DrainStopKeeps(c: Ws, down: seq<Msg>, up: seq<Msg>)
    requires Inv(c, down, up)
    ensures Keeps(DrainStop(c), Nothing, down, up)
  {
    hide Datas, Flat, InwardOk, Inbox.Valid;
  }

  lemma {:induction false} ReceiveKeeps(c: Ws, r: Response, decodes: bool, down: seq<Msg>, up: seq<Msg>)
    requires Inv(c, down, up)
    ensures Keeps(HandleRes(c, r, decodes), FromUp(Res(r)), down, up) && Keeps(HandleClose(c), FromUp(Close), down, up)
  {
    hide Datas, Flat, InwardOk;
    if up != [] {
      DatasPop(up);
    }
  }

  lemma {:induction false} ProcessOne(p: ClientPhase, inbox: Inbox, drain: Reader, o: Outward, b: Bytes, up: seq<Msg>)
    requires OutwardOk(p, inbox, drain, o, up) && inbox.hand.None? && up != [] && up[0] == Data(b)
    ensures OutwardOk(p, Lookup(inbox, b), drain, o, up[1..])
  {
    hide Datas, Flat;
    DatasPop(up);
    assert inbox.processed + ([b] + Datas(up[1..])) == inbox.processed + [b] + Datas(up[1..]);
  }

  lemma {:induction false} LookupKeeps(c: Ws, b: Bytes, down: seq<Msg>, up: seq<Msg>)
    requires Inv(c, down, up)
    ensures Keeps(ReceiveLookup(c, b), FromUp(Data(b)), down, up)
  {
    hide InwardOk, OutwardOk, Flat, Datas;
    if c.s.inbox.hand.None? && Arrived(FromUp(Data(b)), down, up) {
      ProcessOne(c.k.phase, c.s.inbox, c.s.drain, c.o, b, up);
    }
  }

  lemma {:induction false} SelectKeeps(c: Ws, down: seq<Msg>, up: seq<Msg>)
    requires Inv(c, down, up)
    ensures Keeps(ReceiveQueued(c), Nothing, down, up) && Keeps(ReceiveDropped(c), Nothing, down, up)
    ensures Keeps(Cleanup(c), Nothing, down, up)
  {
    hide Datas, Flat, InwardOk;
  }

  lemma {:induction false} StallKeeps(c: Ws, ok: bool, down: seq<Msg>, up: seq<Msg>)
    requires Inv(c, down, up)
    ensures Keeps(ReceiveStalled(c, ok), Nothing, down, up)
  {
    hide Datas, Flat;
    DatasPush(down, ok, Close);
  }

  lemma {:induction false} EarlyParts(s: Server, k: Client, p: ClientPhase, i: Inward, o: Outward, down: seq<Msg>,
                                      up: seq<Msg>)
    requires InwardOk(s.reader, k, i, down) && OutwardOk(k.phase, s.inbox, s.drain, o, up) && Early(k.phase) && Early(p)
    ensures InwardOk(s.reader, k.(phase := p), i, down) && OutwardOk(p, s.inbox, s.drain, o, up)
  {
    hide Datas, Flat;
  }

  lemma {:induction false} PopOther(reader: Reader, k: Client, i: Inward, down: seq<Msg>)
    requires InwardOk(reader, k, i, down) && down != [] && !down[0].Data?
    ensures InwardOk(reader, k, i, down[1..])
  {
    hide Datas, Flat;
    DatasPop(down);
  }

  lemma {:induction false} PushOther(p: ClientPhase, inbox: Inbox, drain: Reader, o: Outward, ok: bool, m: Msg,
                                     up: seq<Msg>)
    requires OutwardOk(p, inbox, drain, o, up) && !m.Data?
    ensures OutwardOk(p, inbox, drain, o, up + Push(ok, m)) && (!ok ==> OutwardOk(p, inbox, drain, o, up))
  {
    hide Datas, Flat;
    DatasPush(up, ok, m);
  }

  lemma {:induction false} ClientReqKeeps(c: Ws, down: seq<Msg>, up: seq<Msg>)
    requires Inv(c, down, up)
    ensures Keeps(ClientReq(c), FromDown(Req(true)), down, up)
  {
    hide InwardOk, OutwardOk;
    if c.k.phase == Absent {
      EarlyParts(c.s, c.k, Spawned, c.i, c.o, down, up);
      if Arrived(FromDown(Req(true)), down, up) {
        PopOther(c.s.reader, c.k.(phase := Spawned), c.i, down);
      }
    }
    hide Datas, Flat;
  }

  /** A handled chunk was lost before registration, is the next one to be written, or missed
      the relay. */
  lemma {:induction false} HandleOne(reader: Reader, k: Client, i: Inward, b: Bytes, down: seq<Msg>)
    requires InwardOk(reader, k, i, down) && k.hand.None? && down != [] && down[0] == Data(b)
    ensures InwardOk(reader, k.(hand := if Live(k) then Some(b) else None), Handled(k, i, b), down[1..])
  {
    hide Datas, Flat, Accounted;
    DatasPop(down);
    assert i.handled + ([b] + Datas(down[1..])) == i.handled + [b] + Datas(down[1..]);
    if !k.everRelay {
      assert (i.handled + [b])[|i.handled| + 1..] == i.handled[|i.handled|..];
    } else {
      assert (i.handled + [b])[i.lost..] == i.handled[i.lost..] + [b];
      FlatSnoc(i.handled[i.lost..], b);
      if Live(k) {
        AccountLive(Flat(i.handled[i.lost..]), i.written, i.torn, i.missed, b);
      } else {
        AccountMissed(Flat(i.handled[i.lost..]), i.written, i.torn, i.missed, b);
      }
    }
  }

  lemma {:induction false} ClientDataKeeps(c: Ws, b: Bytes, down: seq<Msg>, up: seq<Msg>)
    requires Inv(c, down, up)
    ensures Keeps(ClientData(c, b), FromDown(Data(b)), down, up)
  {
    hide OutwardOk, Flat, Datas, Accounted;
    if c.k.hand.None? && Arrived(FromDown(Data(b)), down, up) {
      assert Before(c.k.phase) ==> !c.k.relay;
      hide InwardOk;
      HandleOne(c.s.reader, c.k, c.i, b, down);
    }
  }

  lemma {:induction false} WriteKeeps(c: Ws, n: nat, ok: bool, down: seq<Msg>, up: seq<Msg>)
    requires Inv(c, down, up)
    ensures Keeps(ClientWrite(c, n, ok), Nothing, down, up)
  {
    hide Datas, Flat, OutwardOk, Accounted;
    if c.k.hand.Some? && n <= |c.k.hand.value| && (ok ==> n == |c.k.hand.value|) {
      AccountWritten(Flat(c.i.handled[c.i.lost..]), c.i.written, c.k.hand.value, c.i.torn, c.i.missed, n, Live(c.k),
                     ok);
    }
  }

  lemma {:induction false} ClientCloseKeeps(c: Ws, down: seq<Msg>, up: seq<Msg>)
    requires Inv(c, down, up)
    ensures Keeps(ClientClose(c), FromDown(Close), down, up) && Keeps(ClientShut(c), Nothing, down, up)
  {
    hide Datas, Flat, OutwardOk;
    if down != [] {
      DatasPop(down);
    }
  }

  lemma {:induction false} RefuseKeeps(c: Ws, e: Bytes, ok: bool, down: seq<Msg>, up: seq<Msg>)
    requires Inv(c, down, up)
    ensures Keeps(Refuse(c, e, ok), Nothing, down, up)
  {
    hide Datas, Flat;
    DatasPush(up, ok, Res(Inline(e, false)));
  }

  lemma {:induction false} SwitchKeeps(c: Ws, ok: bool, broken: Option<Bytes>, down: seq<Msg>, up: seq<Msg>)
    requires Inv(c, down, up)
    ensures Keeps(Switch(c, ok, broken), Nothing, down, up)
  {
    hide InwardOk, OutwardOk;
    var m := Res(if broken.None? then Switching else Inline(broken.value, false));
    if c.k.phase == Spawned {
      EarlyParts(c.s, c.k, Switched, c.i, c.o, down, up);
      PushOther(Switched, c.s.inbox, c.s.drain, c.o, ok, m, up);
    }
    hide Datas, Flat;
  }

  lemma {:induction false} RegisterKeeps(c: Ws, down: seq<Msg>, up: seq<Msg>)
    requires Inv(c, down, up)
    ensures Keeps(Register(c), Nothing, down, up)
  {
    hide Datas, Flat;
    assert c.i.handled[|c.i.handled|..] == [];
    FlatNone(c.i.handled[|c.i.handled|..]);
    FlatNone(c.o.sent);
  }

  lemma {:induction false} ReadHistory(inbox: Inbox, drain: Reader, o: Outward, b: Bytes, up: seq<Msg>)
    requires OutwardOk(Reading, inbox, drain, o, up)
    ensures OutwardOk(Reading, inbox, drain, o.(read := o.read + b, sent := o.sent + [b]), up + [Data(b)])
    ensures OutwardOk(Exiting, inbox, drain, o.(read := o.read + b, unsent := o.unsent + b), up)
  {
    hide Datas, Flat, Inbox.Valid;
    DatasPush(up, true, Data(b));
    FlatSnoc(o.sent, b);
    assert inbox.processed + (Datas(up) + [b]) == o.sent + [b];
    assert Flat(o.sent) + [] + b == Flat(o.sent) + b + [] == Flat(o.sent) + ([] + b);
  }

  lemma {:induction false} LocalReadKeeps(c: Ws, b: Bytes, ok: bool, down: seq<Msg>, up: seq<Msg>)
    requires Inv(c, down, up)
    ensures Keeps(LocalRead(c, b, ok), Nothing, down, up) && Keeps(LocalEnd(c, b), Nothing, down, up)
  {
    hide OutwardOk, Flat, Datas;
    if c.k.phase == Reading {
      ReadHistory(c.s.inbox, c.s.drain, c.o, b, up);
    }
  }

  lemma {:induction false} ExitKeeps(c: Ws, down: seq<Msg>, up: seq<Msg>)
    requires Inv(c, down, up)
    ensures Keeps(ExitCloseDone(c), Nothing, down, up) && Keeps(ExitUnregister(c), Nothing, down, up)
  {
    hide Datas, Flat;
  }

  lemma {:induction false} ExitCloseKeeps(c: Ws, ok: bool, down: seq<Msg>, up: seq<Msg>)
    requires Inv(c, down, up)
    ensures Keeps(ExitSendClose(c, ok), Nothing, down, up)
  {
    hide Datas, Flat;
    DatasPush(up, ok, Close);
  }

  lemma {:induction false} ServeStepKeeps(c: Ws, a: Act, down: seq<Msg>, up: seq<Msg>)
    requires Inv(c, down, up)
    ensures Keeps(ServeEffect(c, a), Takes(a), down, up)
  {
    hide Keeps, Inv, List, SendReq, Timeout, Get, Leave, RemovePending, CloseDone, ViewerRead, ViewerEnd, SendClose,
         DrainWrite,
         DrainStop;
    match a
    case SList | STimeout => ListKeeps(c, down, up);
    case SSend(ok) => SendReqKeeps(c, ok, down, up);
    case SGet(ok) => GetKeeps(c, ok, down, up);
    case SLeave => GetKeeps(c, true, down, up);
    case SUnlist | SDone => UnlistKeeps(c, down, up);
    case RRead(b, ok) => ViewerReadKeeps(c, b, ok, down, up);
    case REnd(b) => ViewerReadKeeps(c, b, false, down, up);
    case RClose(ok) => SendCloseKeeps(c, ok, down, up);
    case DWrite(n, ok) => DrainKeeps(c, n, ok, down, up);
    case DStop => DrainStopKeeps(c, down, up);
    case _ => NoneKeeps(Takes(a), down, up);
  }

  lemma {:induction false} LoopStepKeeps(c: Ws, a: Act, down: seq<Msg>, up: seq<Msg>)
    requires Inv(c, down, up)
    ensures Keeps(LoopEffect(c, a), Takes(a), down, up)
  {
    hide Keeps, Inv, HandleRes, ReceiveLookup, ReceiveQueued, ReceiveDropped, ReceiveStalled, HandleClose, Cleanup,
         ClientReq,
         ClientData, ClientWrite, ClientClose, ClientShut;
    match a
    case FRes(r, decodes) => ReceiveKeeps(c, r, decodes, down, up);
    case FClose => ReceiveKeeps(c, Switching, true, down, up);
    case FData(b) => LookupKeeps(c, b, down, up);
    case FEnqueue | FDrop | FCleanup => SelectKeeps(c, down, up);
    case FStall(ok) => StallKeeps(c, ok, down, up);
    case LReq => ClientReqKeeps(c, down, up);
    case LData(b) => ClientDataKeeps(c, b, down, up);
    case LWrite(n, ok) => WriteKeeps(c, n, ok, down, up);
    case LClose | LShut => ClientCloseKeeps(c, down, up);
    case _ => NoneKeeps(Takes(a), down, up);
  }

  lemma {:induction false} LocalStepKeeps(c: Ws, a: Act, down: seq<Msg>, up: seq<Msg>)
    requires Inv(c, down, up)
    ensures Keeps(LocalEffect(c, a), Takes(a), down, up)
  {
    hide Keeps, Inv, Refuse, Switch, Register, LocalRead, LocalEnd, ExitCloseDone, ExitUnregister, ExitSendClose;
    match a
    case KRefuse(e, ok) => RefuseKeeps(c, e, ok, down, up);
    case KSwitch(ok, broken) => SwitchKeeps(c, ok, broken, down, up);
    case KRegister => RegisterKeeps(c, down, up);
    case KRead(b, ok) => LocalReadKeeps(c, b, ok, down, up);
    case KEnd(b) => LocalReadKeeps(c, b, false, down, up);
    case KDone | KOff => ExitKeeps(c, down, up);
    case KClose(ok) => ExitCloseKeeps(c, ok, down, up);
    case _ => NoneKeeps(Takes(a), down, up);
  }

  /** Every step of either side keeps the invariant. */
  lemma {:induction false} StepKeeps(c: Ws, a: Act, down: seq<Msg>, up: seq<Msg>)
    requires Inv(c, down, up)
    ensures Keeps(Effect(c, a), Takes(a), down, up)
  {
    hide Keeps, Inv, ServeEffect, LocalEffect, LoopEffect;
    if IsServeAct(a) {
      ServeStepKeeps(c, a, down, up);
    } else if IsLocalAct(a) {
      LocalStepKeeps(c, a, down, up);
    } else {
      LoopStepKeeps(c, a, down, up);
    }
  }

  // ---- What the invariant promises --------------------------------------

  /** Where every byte read from the viewer is, in every state: handled before registration,
      written, in hand, left over by a failed write, handled after the relay's end, on the link,
      or not sent. */
  lemma {:induction false} InwardAccount(c: Ws, down: seq<Msg>, up: seq<Msg>)
    requires Inv(c, down, up)
    ensures c.i.lost <= |c.i.handled|
    ensures c.i.read == Flat(c.i.handled[..c.i.lost]) + c.i.written + InHand(c.k.hand) + c.i.torn + Flat(c.i.missed)
                        + Flat(Datas(down)) + c.i.unsent
  {
    hide Flat, Datas, Order, OutwardOk;
    FlatAppend(c.i.handled, Datas(down));
    FlatAppend(c.i.handled[..c.i.lost], c.i.handled[c.i.lost..]);
    assert c.i.handled[..c.i.lost] + c.i.handled[c.i.lost..] == c.i.handled;
  }

  /** And on the way back. */
  lemma {:induction false} OutwardAccount(c: Ws, down: seq<Msg>, up: seq<Msg>)
    requires Inv(c, down, up)
    ensures var b := c.s.inbox;
            c.o.read == c.o.written + c.o.torn + Flat(b.queue) + InHand(b.hand) + Flat(b.refused) + Flat(Datas(up))
                        + c.o.unsent
  {
    hide Flat, Datas, Order, InwardOk;
    FlatAppend(c.s.inbox.processed, Datas(up));
    InboxFlat(c.s.inbox);
  }

  /** With no data on the link and none in hand, the local application has all that was read
      from the viewer if and only if none of the four losses has happened. */
  lemma {:induction false} ArrivedIff(c: Ws, down: seq<Msg>, up: seq<Msg>)
    requires Inv(c, down, up) && Datas(down) == [] && c.k.hand.None?
    ensures c.i.lost <= |c.i.handled|
    ensures c.i.written == c.i.read <==>
              Flat(c.i.handled[..c.i.lost]) == [] && c.i.torn == [] && Flat(c.i.missed) == [] && c.i.unsent == []
  {
    hide Inv, Flat, Datas;
    InwardAccount(c, down, up);
    FlatNone(Datas(down));
  }

  /** On the way back: the viewer has all that was read from the local application. */
  lemma {:induction false} ReturnedIff(c: Ws, down: seq<Msg>, up: seq<Msg>)
    requires Inv(c, down, up) && Datas(up) == [] && c.s.inbox.hand.None?
    ensures c.o.written == c.o.read <==>
              c.o.torn == [] && Flat(c.s.inbox.queue) == [] && Flat(c.s.inbox.refused) == [] && c.o.unsent == []
  {
    hide Inv, Flat, Datas;
    OutwardAccount(c, down, up);
    FlatNone(Datas(up));
  }

  /** While the relay is live and drained, the local application has everything from the first
      chunk after registration on, and all of it if and only if no byte came before; the viewer
      has everything. */
  lemma {:induction false} LiveIff(c: Ws, down: seq<Msg>, up: seq<Msg>)
    requires Inv(c, down, up)
    ensures Live(c.k) && c.k.hand.None? && Datas(down) == [] && c.s.reader == Running ==>
              && c.i.lost <= |c.i.sent| && c.i.written == Flat(c.i.sent[c.i.lost..])
              && (c.i.written == c.i.read <==> Flat(c.i.sent[..c.i.lost]) == [])
    ensures c.k.phase == Reading && c.s.inbox.listed && c.s.inbox.hand.None? && c.s.inbox.queue == []
            && Datas(up) == [] && c.s.drain == Running ==>
              c.o.written == c.o.read
  {
    hide Flat, Datas, Order;
    if Live(c.k) && c.k.hand.None? && Datas(down) == [] && c.s.reader == Running {
      ArrivedIff(c, down, up);
      assert c.i.handled + [] == c.i.handled;
    }
    if c.s.inbox.hand.None? && Datas(up) == [] {
      ReturnedIff(c, down, up);
      FlatNone(c.s.inbox.queue);
      FlatNone(c.s.inbox.refused);
    }
  }

  /** The bytes written to the local connection are a gapless run of what was sent, from the
      first chunk after registration: a prefix of what was read from the viewer when none came
      before. The way back has the prefix property without a condition. */
  lemma {:induction false} Promises(c: Ws, down: seq<Msg>, up: seq<Msg>)
    requires Inv(c, down, up)
    ensures c.i.lost <= |c.i.handled| && c.i.handled <= c.i.sent && c.i.written <= Flat(c.i.handled[c.i.lost..])
    ensures Flat(c.i.handled[..c.i.lost]) == [] ==> c.i.written <= c.i.read
    ensures c.o.written <= c.o.read
    ensures c.s.inbox.taken <= c.s.inbox.processed
    ensures c.s.inbox.listed ==> !c.s.inbox.closed && !c.s.inbox.done
  {
    hide Flat, Datas, Order;
    InwardAccount(c, down, up);
    OutwardAccount(c, down, up);
  }

  // ---- What a step sends, and what it does to the table -------------------

  predicate DownKind(m: Msg) { m == Req(true) || m.Data? || m == Close }

  predicate UpKind(m: Msg) { m.Res? || m.Data? || m == Close }

  /** Only frames of its kind are sent, only the opening frame makes the client begin, and the
      client's entry, a relay's, comes and goes with the steps that say so. */
  ghost predicate Told(c: Ws, a: Act, e: Option<Out<Ws>>) {
    e.Some? ==>
      && (forall m :: m in e.value.down ==> DownKind(m)) && (forall m :: m in e.value.up ==> UpKind(m))
      && (c.k.phase == Absent && e.value.core.k.phase != Absent ==> Takes(a) == FromDown(Req(true)))
      && (e.value.core.k.phase == Absent ==> c.k.phase == Absent)
      && e.value.core.k.relay == (a.KRegister? || (c.k.relay && !(a.KOff? || a.LShut? || a.LClose?)))
  }

  lemma {:induction false} ServeTold(c: Ws, a: Act)
    ensures Told(c, a, ServeEffect(c, a))
  {
  }

  lemma {:induction false} LoopTold(c: Ws, a: Act)
    ensures Told(c, a, LoopEffect(c, a))
  {
  }

  lemma {:induction false} LocalTold(c: Ws, a: Act)
    ensures Told(c, a, LocalEffect(c, a))
  {
  }

  lemma {:induction false} StepTold(c: Ws, a: Act)
    ensures Told(c, a, Effect(c, a))
  {
    hide Told, ServeEffect, LoopEffect, LocalEffect;
    ServeTold(c, a);
    LoopTold(c, a);
    LocalTold(c, a);
  }

  // ---- No frame of its kind blocks a link ---------------------------------

  /** The steps that take a frame from the link to the client, and to the server. */
  function DownAct(m: Msg): Act { match m case Data(b) => LData(b) case Close => LClose case _ => LReq }

  function UpAct(m: Msg): Act { match m case Data(b) => FData(b) case Res(r) => FRes(r, true) case _ => FClose }

  lemma {:induction false} HeadTaken(c: Ws, down: seq<Msg>, up: seq<Msg>)
    requires Inv(c, down, up) && down != [] && DownKind(down[0]) && c.k.hand.None?
    ensures Takes(DownAct(down[0])) == FromDown(down[0]) && Effect(c, DownAct(down[0])).Some?
  {
    hide InwardOk, OutwardOk, ServeEffect, LocalEffect;
    assert down[0] in down;
    assert down[0] == Req(true) ==> c.k.phase == Absent;
    hide Inv;
  }

  lemma {:induction false} UpTaken(c: Ws, m: Msg)
    requires UpKind(m) && c.s.inbox.hand.None?
    ensures Takes(UpAct(m)) == FromUp(m) && Effect(c, UpAct(m)).Some?
  {
  }

  /** A loop that is busy with a payload can give it up. */
  lemma {:induction false} HandFreed(c: Ws)
    ensures c.k.hand.Some? ==>
              var e := Effect(c, LWrite(0, false));
              Takes(LWrite(0, false)) == Nothing && e.Some? && e.value.core.k.hand.None?
    ensures c.s.inbox.hand.Some? ==>
              var e := Effect(c, FStall(true));
              Takes(FStall(true)) == Nothing && e.Some? && e.value.core.s.inbox.hand.None?
  {
  }
}
