/**
 One public TCP or TLS connection relayed to the client's local port: relayPublicConn and
 its drain goroutine on the server, handleTCPOpen on the client, and the two frame loops.
 Every blocking call, timeout and write failure is a nondeterministic step.
 */
module TcpRelay {
  import opened Basics
  import opened Link

  datatype ServerPhase = Idle | Listed | Waiting | Released | Pumping | Closing | Leaving | Unlisted | Gone
  datatype Drain = NotYet | Running | Stopped
  datatype ClientPhase = Absent | Spawned | Registered | Reading | Exiting | ExitDone | ExitOff | Ended

  /** `stopped` is h.done. */
  datatype Server = Server(phase: ServerPhase, inbox: Inbox, ready: bool, drain: Drain, stopped: bool)

  /** The client's relay: whether the ID is in the table, whether its done channel is closed,
      and the payload the frame loop is writing. `everRelay` and `closeSent` are history. */
  datatype Client = Client(phase: ClientPhase, relay: bool, done: bool, hand: Option<Bytes>,
                           everRelay: bool, closeSent: bool)

  /** Histories, public to local. `prefix` was read while peeking; it is empty for raw TCP.
      `unsent` is what was read and not, or not yet, sent, `torn` what a failed write left, and
      `missed` holds the payloads handled while the relay was not live. */
  datatype Inward = Inward(prefix: Bytes, read: Bytes, sent: seq<Bytes>, unsent: Bytes, handled: seq<Bytes>,
                           written: Bytes, torn: Bytes, missed: seq<Bytes>)

  /** Histories, local to public. */
  datatype Outward = Outward(read: Bytes, sent: seq<Bytes>, unsent: Bytes, written: Bytes, torn: Bytes)

  /** `early`: a data frame was handled although the relay was never registered and no close
      was sent. `clean`: nothing failed, timed out or was refused so far. `localFirst`: the
      local side ended while the relay was live. `closeHandled`: a close ended a live relay.
      `cut`: the drain stopped before the end of its stream. */
  datatype Notes = Notes(early: bool, clean: bool, localFirst: bool, closeHandled: bool, cut: bool)

  datatype Tcp = Tcp(s: Server, k: Client, i: Inward, o: Outward, n: Notes)

  function Init(prefix: Bytes): Tcp {
    Tcp(Server(Idle, EMPTY_INBOX, false, NotYet, false), Client(Absent, false, false, None, false, false),
        Inward(prefix, [], [], prefix, [], [], [], []), Outward([], [], [], [], []),
        Notes(false, true, false, false, false))
  }

  function Fault(n: Notes, ok: bool): Notes { n.(clean := n.clean && ok) }

  datatype Act =
    // relayPublicConn
    | SList | SOpen(ok: bool) | SReady | SGiveUp | SPrefix(ok: bool)
    | SRead(b: Bytes, ok: bool, last: bool) | SClose(ok: bool) | SUnlist | SDone
    // its drain goroutine
    | DWrite(n: nat, ok: bool) | DStop
    // the server's frame loop
    | FReady | FData(b: Bytes) | FEnqueue | FDrop | FStall(ok: bool) | FClose | FCleanup
    // the client's frame loop
    | KOpen | KData(b: Bytes) | KWrite(n: nat, ok: bool) | KClose | KShut
    // handleTCPOpen
    | CRefuse(ok: bool) | CRegister | CAck(ok: bool) | CRead(b: Bytes, ok: bool) | CEnd(b: Bytes)
    | CDone | COff | CClose(ok: bool)

  function Takes(a: Act): Recv {
    match a
    case FReady => FromUp(TCPOpen)
    case FData(b) => FromUp(Data(b))
    case FClose => FromUp(Close)
    case KOpen => FromDown(TCPOpen)
    case KData(b) => FromDown(Data(b))
    case KClose => FromDown(Close)
    case _ => Nothing
  }

  // ---- relayPublicConn --------------------------------------------------

  function List(c: Tcp): Option<Out<Tcp>> {
    if c.s.phase == Idle && c.s.inbox == EMPTY_INBOX
    then Just(c.(s := c.s.(phase := Listed, inbox := Enlist(c.s.inbox)))) else None
  }

  function SendOpen(c: Tcp, ok: bool): Option<Out<Tcp>> {
    if c.s.phase != Listed then None
    else Some(Out(c.(s := c.s.(phase := if ok then Waiting else Leaving), n := Fault(c.n, ok)), Push(ok, TCPOpen), []))
  }

  function SeeReady(c: Tcp): Option<Out<Tcp>> {
    if c.s.phase == Waiting && c.s.ready then Just(c.(s := c.s.(phase := Released))) else None
  }

  /** RequestTimeout, or h.done. */
  function GiveUp(c: Tcp): Option<Out<Tcp>> {
    if c.s.phase == Waiting then Just(c.(s := c.s.(phase := Leaving), n := Fault(c.n, false))) else None
  }

  function SendPrefix(c: Tcp, ok: bool): Option<Out<Tcp>> {
    if c.s.phase != Released then None
    else if c.i.prefix == [] then Just(c.(s := c.s.(phase := Pumping, drain := Running)))
    else if ok then
      Some(Out(c.(s := c.s.(phase := Pumping, drain := Running),
                  i := c.i.(sent := c.i.sent + [c.i.prefix], unsent := [])),
               [Data(c.i.prefix)], []))
    else Just(c.(s := c.s.(phase := Leaving), n := Fault(c.n, false)))
  }

  function PublicRead(c: Tcp, b: Bytes, ok: bool, last: bool): Option<Out<Tcp>> {
    if c.s.phase != Pumping || |b| > STREAM_BUF_SIZE then None
    else if b == [] then Just(c.(s := c.s.(phase := if last then Closing else Pumping)))
    else if ok then
      Some(Out(c.(s := c.s.(phase := if last then Closing else Pumping),
                  i := c.i.(read := c.i.read + b, sent := c.i.sent + [b])),
               [Data(b)], []))
    else Just(c.(s := c.s.(phase := Closing),
                 i := c.i.(read := c.i.read + b, unsent := c.i.unsent + b), n := Fault(c.n, false)))
  }

  function SendClose(c: Tcp, ok: bool): Option<Out<Tcp>> {
    if c.s.phase != Closing then None
    else Some(Out(c.(s := c.s.(phase := Leaving), n := Fault(c.n, ok)), Push(ok, Close), []))
  }

  function RemovePending(c: Tcp): Option<Out<Tcp>> {
    if c.s.phase == Leaving then Just(c.(s := c.s.(phase := Unlisted, inbox := Unlist(c.s.inbox)))) else None
  }

  function CloseDone(c: Tcp): Option<Out<Tcp>> {
    if c.s.phase == Unlisted && !c.s.inbox.listed
    then Just(c.(s := c.s.(phase := Gone, inbox := MarkDone(c.s.inbox)))) else None
  }

  // ---- Its drain goroutine ----------------------------------------------

  /** A received chunk is written wholly, or up to a failure. */
  function DrainWrite(c: Tcp, n: nat, ok: bool): Option<Out<Tcp>> {
    var q := c.s.inbox.queue;
    if c.s.drain != Running || q == [] || n > |q[0]| || (ok && n < |q[0]|) then None
    else Just(c.(s := c.s.(inbox := Take(c.s.inbox), drain := if ok then Running else Stopped),
                 o := c.o.(written := c.o.written + q[0][..n], torn := c.o.torn + q[0][n..]), n := Fault(c.n, ok)))
  }

  function DrainStop(c: Tcp): Option<Out<Tcp>> {
    if c.s.drain == Running && (c.s.inbox.done || c.s.stopped || (c.s.inbox.closed && c.s.inbox.queue == []))
    then Just(c.(s := c.s.(drain := Stopped),
                 n := c.n.(cut := c.n.cut || !(c.s.inbox.closed && c.s.inbox.queue == [])))) else None
  }

  // ---- The server's frame loop: busy while it holds a payload -----------

  function HandleReady(c: Tcp): Option<Out<Tcp>> {
    if c.s.inbox.hand.None? then Just(c.(s := c.s.(ready := c.s.ready || c.s.inbox.listed))) else None
  }

  /** handleStreamData: the lookup, then one of the outcomes of its select. */
  function ReceiveLookup(c: Tcp, b: Bytes): Option<Out<Tcp>> {
    if c.s.inbox.hand.None? then Just(c.(s := c.s.(inbox := Lookup(c.s.inbox, b)))) else None
  }

  function ReceiveQueued(c: Tcp): Option<Out<Tcp>> {
    if c.s.inbox.hand.Some? && !c.s.inbox.closed && |c.s.inbox.queue| < STREAM_RELAY_BUF
    then Just(c.(s := c.s.(inbox := Enqueue(c.s.inbox)))) else None
  }

  function ReceiveDropped(c: Tcp): Option<Out<Tcp>> {
    if c.s.inbox.hand.Some? && (c.s.inbox.done || c.s.inbox.closed)
    then Just(c.(s := c.s.(inbox := Drop(c.s.inbox)))) else None
  }

  function ReceiveStalled(c: Tcp, ok: bool): Option<Out<Tcp>> {
    if c.s.inbox.hand.Some?
    then Some(Out(c.(s := c.s.(inbox := Stall(c.s.inbox)), n := Fault(c.n, false)), Push(ok, Close), [])) else None
  }

  function HandleClose(c: Tcp): Option<Out<Tcp>> {
    if c.s.inbox.hand.None?
    then Just(c.(s := c.s.(inbox := PeerClose(c.s.inbox), ready := c.s.ready || c.s.inbox.listed))) else None
  }

  function Cleanup(c: Tcp): Option<Out<Tcp>> {
    Just(c.(s := c.s.(inbox := CleanUp(c.s.inbox), stopped := true), n := Fault(c.n, false)))
  }

  // ---- The client's frame loop: busy while it writes a payload ----------

  function ClientOpen(c: Tcp): Option<Out<Tcp>> {
    if c.k.hand.None? && c.k.phase == Absent then Just(c.(k := c.k.(phase := Spawned))) else None
  }

  /** Data for this ID is written to the local connection. */
  predicate Live(k: Client) { k.relay && !k.done }

  function ClientData(c: Tcp, b: Bytes): Option<Out<Tcp>> {
    if c.k.hand.Some? then None
    else Just(c.(i := c.i.(handled := c.i.handled + [b],
                           missed := if Live(c.k) then c.i.missed else c.i.missed + [b]),
                 n := c.n.(early := c.n.early || (!c.k.everRelay && !c.k.closeSent)),
                 k := c.k.(hand := if Live(c.k) then Some(b) else None)))
  }

  function ClientWrite(c: Tcp, n: nat, ok: bool): Option<Out<Tcp>> {
    if c.k.hand.None? || n > |c.k.hand.value| || (ok && n < |c.k.hand.value|) then None
    else Just(c.(i := c.i.(written := c.i.written + c.k.hand.value[..n], torn := c.i.torn + c.k.hand.value[n..]),
                 k := c.k.(hand := None, done := c.k.done || !ok), n := Fault(c.n, ok)))
  }

  function ClientClose(c: Tcp): Option<Out<Tcp>> {
    if c.k.hand.Some? then None
    else if c.k.relay then
      Just(c.(k := c.k.(relay := false, done := true), n := c.n.(closeHandled := c.n.closeHandled || !c.k.done)))
    else Just(c)
  }

  /** Tunnel.Close. */
  function ClientShut(c: Tcp): Option<Out<Tcp>> {
    Just(c.(k := c.k.(relay := false, done := c.k.done || c.k.relay), n := Fault(c.n, false)))
  }

  // ---- handleTCPOpen ----------------------------------------------------

  /** No relay slot, unknown tunnel, or the dial failed. */
  function Refuse(c: Tcp, ok: bool): Option<Out<Tcp>> {
    if c.k.phase != Spawned then None
    else Some(Out(c.(k := c.k.(phase := Ended, closeSent := c.k.closeSent || ok), n := Fault(c.n, false)),
                  [], Push(ok, Close)))
  }

  function Register(c: Tcp): Option<Out<Tcp>> {
    if c.k.phase == Spawned then Just(c.(k := c.k.(phase := Registered, relay := true, everRelay := true))) else None
  }

  function SendAck(c: Tcp, ok: bool): Option<Out<Tcp>> {
    if c.k.phase != Registered then None
    else Some(Out(c.(k := c.k.(phase := Reading), n := Fault(c.n, ok)), [], Push(ok, TCPOpen)))
  }

  function LocalRead(c: Tcp, b: Bytes, ok: bool): Option<Out<Tcp>> {
    if c.k.phase != Reading || |b| > STREAM_BUF_SIZE then None
    else if ok then Some(Out(c.(o := c.o.(read := c.o.read + b, sent := c.o.sent + [b])), [], [Data(b)]))
    else Just(c.(o := c.o.(read := c.o.read + b, unsent := c.o.unsent + b), k := c.k.(phase := Exiting),
                 n := Fault(c.n, false)))
  }

  /** The read fails; bytes that came with the error are dropped. */
  function LocalEnd(c: Tcp, b: Bytes): Option<Out<Tcp>> {
    if c.k.phase != Reading then None
    else Just(c.(k := c.k.(phase := Exiting), o := c.o.(read := c.o.read + b, unsent := c.o.unsent + b),
                 n := c.n.(localFirst := c.n.localFirst || Live(c.k))))
  }

  function ExitCloseDone(c: Tcp): Option<Out<Tcp>> {
    if c.k.phase == Exiting then Just(c.(k := c.k.(phase := ExitDone, done := true))) else None
  }

  function ExitUnregister(c: Tcp): Option<Out<Tcp>> {
    if c.k.phase == ExitDone then Just(c.(k := c.k.(phase := ExitOff, relay := false))) else None
  }

  function ExitSendClose(c: Tcp, ok: bool): Option<Out<Tcp>> {
    if c.k.phase != ExitOff then None
    else Some(Out(c.(k := c.k.(phase := Ended, closeSent := c.k.closeSent || ok), n := Fault(c.n, ok)),
                  [], Push(ok, Close)))
  }

  /** The steps of the relay goroutine and its drain. */
  function RelayEffect(c: Tcp, a: Act): Option<Out<Tcp>> {
    match a
    case SList => List(c)
    case SOpen(ok) => SendOpen(c, ok)
    case SReady => SeeReady(c)
    case SGiveUp => GiveUp(c)
    case SPrefix(ok) => SendPrefix(c, ok)
    case SRead(b, ok, last) => PublicRead(c, b, ok, last)
    case SClose(ok) => SendClose(c, ok)
    case SUnlist => RemovePending(c)
    case SDone => CloseDone(c)
    case DWrite(n, ok) => DrainWrite(c, n, ok)
    case DStop => DrainStop(c)
    case _ => None
  }

  /** The steps of the two frame loops. */
  function LoopEffect(c: Tcp, a: Act): Option<Out<Tcp>> {
    match a
    case FReady => HandleReady(c)
    case FData(b) => ReceiveLookup(c, b)
    case FEnqueue => ReceiveQueued(c)
    case FDrop => ReceiveDropped(c)
    case FStall(ok) => ReceiveStalled(c, ok)
    case FClose => HandleClose(c)
    case FCleanup => Cleanup(c)
    case KOpen => ClientOpen(c)
    case KData(b) => ClientData(c, b)
    case KWrite(n, ok) => ClientWrite(c, n, ok)
    case KClose => ClientClose(c)
    case KShut => ClientShut(c)
    case _ => None
  }

  /** The steps of the client's goroutine. */
  function DialEffect(c: Tcp, a: Act): Option<Out<Tcp>> {
    match a
    case CRefuse(ok) => Refuse(c, ok)
    case CRegister => Register(c)
    case CAck(ok) => SendAck(c, ok)
    case CRead(b, ok) => LocalRead(c, b, ok)
    case CEnd(b) => LocalEnd(c, b)
    case CDone => ExitCloseDone(c)
    case COff => ExitUnregister(c)
    case CClose(ok) => ExitSendClose(c, ok)
    case _ => None
  }

  predicate IsRelayAct(a: Act) {
    a.SList? || a.SOpen? || a.SReady? || a.SGiveUp? || a.SPrefix? || a.SRead? || a.SClose? || a.SUnlist? || a.SDone?
    || a.DWrite? || a.DStop?
  }

  predicate IsDialAct(a: Act) {
    a.CRefuse? || a.CRegister? || a.CAck? || a.CRead? || a.CEnd? || a.CDone? || a.COff? || a.CClose?
  }

  function Effect(c: Tcp, a: Act): Option<Out<Tcp>> {
    if IsRelayAct(a) then RelayEffect(c, a) else if IsDialAct(a) then DialEffect(c, a) else LoopEffect(c, a)
  }

  // ---- Invariant --------------------------------------------------------

  predicate Before(p: ClientPhase) { p == Absent || p == Spawned }

  predicate Early(p: ServerPhase) { p == Idle || p == Listed || p == Waiting || p == Released }

  /** How far each side has got, and which frames can then be on the links. */
  ghost predicate Order(s: Server, k: Client, sent: seq<Bytes>, down: seq<Msg>, up: seq<Msg>) {
    && (s.phase == Idle ==> s.inbox == EMPTY_INBOX)
    && (s.phase == Idle || s.phase == Listed ==> k.phase == Absent && down == [])
    && (k.phase == Absent ==> down == [] || down == [TCPOpen])
    && (k.phase != Absent ==> TCPOpen !in down)
    && (Before(k.phase) ==> up == [] && s.inbox.hand.None? && s.inbox.processed == [] && !k.everRelay && !k.closeSent)
    && (!Before(k.phase) && k.phase != Ended ==> k.everRelay)
    && (TCPOpen in up ==> k.everRelay)
    && (Close in up ==> k.closeSent)
    && (k.phase == ExitOff || k.phase == Ended ==> !k.relay)
    && (s.ready ==> k.everRelay || k.closeSent)
    && (sent != [] || s.phase == Released || s.phase == Pumping || s.phase == Closing ==> s.ready)
  }

  /** Public to local: what was read, sent, handled and written. */
  ghost predicate InwardOk(p: ServerPhase, k: Client, i: Inward, down: seq<Msg>) {
    && (Early(p) ==> i.sent == [] && i.read == [] && i.unsent == i.prefix)
    && (p == Pumping ==> i.unsent == [])
    && Flat(i.sent) + i.unsent == i.prefix + i.read
    && i.handled + Datas(down) == i.sent
    && (k.relay || k.hand.Some? || k.done || i.written != [] ==> k.everRelay)
    && Accounted(Flat(i.handled), i.written, k.hand, i.torn, i.missed, Live(k))
  }

  /** Local to public: what was read, sent, processed, queued and written. */
  ghost predicate OutwardOk(p: ClientPhase, s: Server, o: Outward, up: seq<Msg>) {
    && (Before(p) ==> o.sent == [] && o.read == [])
    && (Before(p) || p == Registered || p == Reading ==> o.unsent == [])
    && Flat(o.sent) + o.unsent == o.read
    && s.inbox.processed + Datas(up) == o.sent
    && s.inbox.Valid()
    && (Early(s.phase) ==> s.drain == NotYet)
    && o.written + o.torn == Flat(s.inbox.taken)
    && (s.drain != Stopped ==> o.torn == [])
  }

  ghost predicate Inv(c: Tcp, down: seq<Msg>, up: seq<Msg>) {
    && Order(c.s, c.k, c.i.sent, down, up)
    && InwardOk(c.s.phase, c.k, c.i, down)
    && OutwardOk(c.k.phase, c.s, c.o, up)
    && !c.n.early
  }

  lemma {:induction false} InitInv(prefix: Bytes)
    ensures Inv(Init(prefix), [], [])
  {
  }

  // ---- Every step keeps it ----------------------------------------------

  /** The outcome of a step that takes `r` keeps the invariant. */
  ghost predicate Keeps(e: Option<Out<Tcp>>, r: Recv, down: seq<Msg>, up: seq<Msg>) {
    e.Some? && Arrived(r, down, up) ==>
      Inv(e.value.core, After(down, r.FromDown?, e.value.down), After(up, r.FromUp?, e.value.up))
  }

  lemma {:induction false} NoneKeeps(r: Recv, down: seq<Msg>, up: seq<Msg>)
    ensures Keeps(None, r, down, up)
  {
  }

  lemma {:induction false} ListKeeps(c: Tcp, down: seq<Msg>, up: seq<Msg>)
    requires Inv(c, down, up)
    ensures Keeps(List(c), Nothing, down, up)
  {
    hide Datas, Flat;
  }

  lemma {:induction false} UnlistKeeps(c: Tcp, down: seq<Msg>, up: seq<Msg>)
    requires Inv(c, down, up)
    ensures Keeps(RemovePending(c), Nothing, down, up)
  {
    hide Datas, Flat;
  }

  lemma {:induction false} OpenKeeps(c: Tcp, ok: bool, down: seq<Msg>, up: seq<Msg>)
    requires Inv(c, down, up)
    ensures Keeps(SendOpen(c, ok), Nothing, down, up)
  {
    hide Datas, Flat;
    DatasPush(down, ok, TCPOpen);
  }

  lemma {:induction false} WaitKeeps(c: Tcp, down: seq<Msg>, up: seq<Msg>)
    requires Inv(c, down, up)
    ensures Keeps(SeeReady(c), Nothing, down, up) && Keeps(GiveUp(c), Nothing, down, up)
  {
    hide Datas, Flat;
  }

  /** Sending one more chunk, whatever it was read from: the links... */
  lemma {:induction false} SendOrder(c: Tcp, s: Server, sent: seq<Bytes>, b: Bytes, down: seq<Msg>, up: seq<Msg>)
    requires Inv(c, down, up) && c.s.ready && !Early(s.phase)
    requires s == c.s.(phase := s.phase, drain := s.drain) && (c.s.drain == Stopped ==> s.drain == Stopped)
    ensures Order(s, c.k, sent, down + [Data(b)], up)
    ensures s.drain != Stopped || c.s.drain == Stopped ==> OutwardOk(c.k.phase, s, c.o, up)
  {
    hide Datas, Flat, InwardOk;
  }

  /** ... and the histories. */
  lemma {:induction false} SendHistory(c: Tcp, p: ServerPhase, i: Inward, b: Bytes, down: seq<Msg>, up: seq<Msg>)
    requires Inv(c, down, up) && !Early(p)
    requires i == c.i.(sent := c.i.sent + [b], read := i.read, unsent := [])
    requires Flat(c.i.sent) + b == i.prefix + i.read
    ensures InwardOk(p, c.k, i, down + [Data(b)])
  {
    hide Order, OutwardOk, Accounted;
    DatasPush(down, true, Data(b));
    FlatSnoc(c.i.sent, b);
    assert c.i.handled + (Datas(down) + [b]) == c.i.sent + [b];
    assert Flat(i.sent) + [] == Flat(i.sent);
    hide Datas, Flat;
  }

  lemma {:induction false} PrefixSentKeeps(c: Tcp, down: seq<Msg>, up: seq<Msg>)
    requires Inv(c, down, up) && c.s.phase == Released && c.i.prefix != []
    ensures Keeps(SendPrefix(c, true), Nothing, down, up)
  {
    assert Flat(c.i.sent) + c.i.prefix == c.i.prefix + c.i.read;
    hide InwardOk, Order, OutwardOk, Flat, Datas;
    var i := c.i.(sent := c.i.sent + [c.i.prefix], unsent := []);
    SendOrder(c, c.s.(phase := Pumping, drain := Running), i.sent, c.i.prefix, down, up);
    SendHistory(c, Pumping, i, c.i.prefix, down, up);
  }

  lemma {:induction false} PrefixOtherKeeps(c: Tcp, ok: bool, down: seq<Msg>, up: seq<Msg>)
    requires Inv(c, down, up) && !(c.s.phase == Released && c.i.prefix != [] && ok)
    ensures Keeps(SendPrefix(c, ok), Nothing, down, up)
  {
    hide Flat, Datas, Accounted, Inbox.Valid;
  }

  lemma {:induction false} PrefixKeeps(c: Tcp, ok: bool, down: seq<Msg>, up: seq<Msg>)
    requires Inv(c, down, up)
    ensures Keeps(SendPrefix(c, ok), Nothing, down, up)
  {
    hide Keeps, Inv;
    if c.s.phase == Released && c.i.prefix != [] && ok {
      PrefixSentKeeps(c, down, up);
    } else {
      PrefixOtherKeeps(c, ok, down, up);
    }
  }

  lemma {:induction false} ReadSentKeeps(c: Tcp, b: Bytes, last: bool, down: seq<Msg>, up: seq<Msg>)
    requires Inv(c, down, up) && c.s.phase == Pumping && b != []
    ensures Keeps(PublicRead(c, b, true, last), Nothing, down, up)
  {
    hide Datas, Flat, Accounted, Inbox.Valid;
    assert c.i.prefix + c.i.read + b == c.i.prefix + (c.i.read + b);
    assert Flat(c.i.sent) + [] == Flat(c.i.sent);
    var i := c.i.(read := c.i.read + b, sent := c.i.sent + [b], unsent := []);
    var p := if last then Closing else Pumping;
    SendOrder(c, c.s.(phase := p), i.sent, b, down, up);
    SendHistory(c, p, i, b, down, up);
    hide InwardOk, Order, OutwardOk;
  }

  lemma {:induction false} ReadLostKeeps(c: Tcp, b: Bytes, last: bool, down: seq<Msg>, up: seq<Msg>)
    requires Inv(c, down, up) && c.s.phase == Pumping && b != []
    ensures Keeps(PublicRead(c, b, false, last), Nothing, down, up)
  {
    hide Datas, Flat, Accounted, Inbox.Valid;
    assert c.i.prefix + c.i.read + b == c.i.prefix + (c.i.read + b);
    assert Flat(c.i.sent) + [] + b == Flat(c.i.sent) + ([] + b);
  }

  lemma {:induction false} ReadNothingKeeps(c: Tcp, ok: bool, last: bool, down: seq<Msg>, up: seq<Msg>)
    requires Inv(c, down, up)
    ensures Keeps(PublicRead(c, [], ok, last), Nothing, down, up)
  {
    hide Datas, Flat;
  }

  lemma {:induction false} ReadKeeps(c: Tcp, b: Bytes, ok: bool, last: bool, down: seq<Msg>, up: seq<Msg>)
    requires Inv(c, down, up)
    ensures Keeps(PublicRead(c, b, ok, last), Nothing, down, up)
  {
    hide Keeps, Inv;
    if c.s.phase != Pumping {
      NoneKeeps(Nothing, down, up);
    } else if b == [] {
      ReadNothingKeeps(c, ok, last, down, up);
    } else if ok {
      ReadSentKeeps(c, b, last, down, up);
    } else {
      ReadLostKeeps(c, b, last, down, up);
    }
  }

  lemma {:induction false} CloseKeeps(c: Tcp, ok: bool, down: seq<Msg>, up: seq<Msg>)
    requires Inv(c, down, up)
    ensures Keeps(SendClose(c, ok), Nothing, down, up)
  {
    hide Flat;
    DatasPush(down, ok, Close);
  }

  lemma {:induction false} DoneKeeps(c: Tcp, down: seq<Msg>, up: seq<Msg>)
    requires Inv(c, down, up)
    ensures Keeps(CloseDone(c), Nothing, down, up)
  {
    hide Datas, Flat;
  }

  lemma {:induction false} DrainKeeps(c: Tcp, n: nat, ok: bool, down: seq<Msg>, up: seq<Msg>)
    requires Inv(c, down, up)
    ensures Keeps(DrainWrite(c, n, ok), Nothing, down, up)
  {
    hide Datas, Flat, InwardOk;
    if c.s.inbox.queue != [] && n <= |c.s.inbox.queue[0]| {
      var q := c.s.inbox.queue[0];
      FlatSnoc(c.s.inbox.taken, q);
      assert q[..n] + q[n..] == q;
      assert c.o.torn == [] ==> c.o.written + c.o.torn + q == c.o.written + q[..n] + (c.o.torn + q[n..]);
    }
  }

  lemma {:induction false} DrainStopKeeps(c: Tcp, down: seq<Msg>, up: seq<Msg>)
    requires Inv(c, down, up)
    ensures Keeps(DrainStop(c), Nothing, down, up)
  {
    hide Datas, Flat;
  }

  lemma {:induction false} ReadyKeeps(c: Tcp, down: seq<Msg>, up: seq<Msg>)
    requires Inv(c, down, up)
    ensures Keeps(HandleReady(c), FromUp(TCPOpen), down, up)
  {
    hide Datas, Flat;
    if up != [] {
      DatasPop(up);
    }
  }

  lemma {:induction false} HandleCloseKeeps(c: Tcp, down: seq<Msg>, up: seq<Msg>)
    requires Inv(c, down, up)
    ensures Keeps(HandleClose(c), FromUp(Close), down, up)
  {
    hide Datas, Flat;
    if up != [] {
      DatasPop(up);
    }
  }

  lemma {:induction false} LookupKeeps(c: Tcp, b: Bytes, down: seq<Msg>, up: seq<Msg>)
    requires Inv(c, down, up)
    ensures Keeps(ReceiveLookup(c, b), FromUp(Data(b)), down, up)
  {
    if Arrived(FromUp(Data(b)), down, up) {
      assert c.s.inbox.processed + Datas(up) == c.s.inbox.processed + [b] + Datas(up[1..]);
    }
  }

  lemma {:induction false} QueuedKeeps(c: Tcp, down: seq<Msg>, up: seq<Msg>)
    requires Inv(c, down, up)
    ensures Keeps(ReceiveQueued(c), Nothing, down, up)
  {
    hide Datas, Flat;
  }

  lemma {:induction false} DroppedKeeps(c: Tcp, down: seq<Msg>, up: seq<Msg>)
    requires Inv(c, down, up)
    ensures Keeps(ReceiveDropped(c), Nothing, down, up)
  {
    hide Datas, Flat;
  }

  lemma {:induction false} StallKeeps(c: Tcp, ok: bool, down: seq<Msg>, up: seq<Msg>)
    requires Inv(c, down, up)
    ensures Keeps(ReceiveStalled(c, ok), Nothing, down, up)
  {
    hide Flat;
    DatasPush(down, ok, Close);
  }

  lemma {:induction false} CleanupKeeps(c: Tcp, down: seq<Msg>, up: seq<Msg>)
    requires Inv(c, down, up)
    ensures Keeps(Cleanup(c), Nothing, down, up)
  {
    hide Datas, Flat;
  }

  lemma {:induction false} ShutKeeps(c: Tcp, down: seq<Msg>, up: seq<Msg>)
    requires Inv(c, down, up)
    ensures Keeps(ClientShut(c), Nothing, down, up)
  {
    hide Datas, Flat;
  }

  /** The client's first steps leave the histories as they are. */
  lemma {:induction false} EarlyParts(s: Server, k: Client, i: Inward, o: Outward, down: seq<Msg>, up: seq<Msg>)
    requires InwardOk(s.phase, k, i, down) && OutwardOk(k.phase, s, o, up) && Before(k.phase)
    ensures InwardOk(s.phase, k.(phase := Spawned), i, down) && OutwardOk(Spawned, s, o, up)
  {
    hide Datas, Flat;
  }

  lemma {:induction false} PopOther(p: ServerPhase, k: Client, i: Inward, down: seq<Msg>)
    requires InwardOk(p, k, i, down) && down != [] && !down[0].Data?
    ensures InwardOk(p, k, i, down[1..])
  {
    hide Datas, Flat;
    DatasPop(down);
  }

  lemma {:induction false} ClientOpenKeeps(c: Tcp, down: seq<Msg>, up: seq<Msg>)
    requires Inv(c, down, up)
    ensures Keeps(ClientOpen(c), FromDown(TCPOpen), down, up)
  {
    hide InwardOk, OutwardOk;
    if c.k.phase == Absent && Arrived(FromDown(TCPOpen), down, up) {
      EarlyParts(c.s, c.k, c.i, c.o, down, up);
      PopOther(c.s.phase, c.k.(phase := Spawned), c.i, down);
    }
  }

  lemma {:induction false} RegisterKeeps(c: Tcp, down: seq<Msg>, up: seq<Msg>)
    requires Inv(c, down, up)
    ensures Keeps(Register(c), Nothing, down, up)
  {
    hide Datas, Flat;
    FlatNone(c.o.sent);
    FlatNone(c.i.handled);
  }

  /** A payload that is handled was sent; it is the next to be written, or missed the relay. */
  lemma {:induction false} HandleOne(p: ServerPhase, k: Client, i: Inward, b: Bytes, down: seq<Msg>)
    requires InwardOk(p, k, i, down) && k.hand.None? && down != [] && down[0] == Data(b)
    ensures i.sent != []
    ensures InwardOk(p, k.(hand := if Live(k) then Some(b) else None),
                     i.(handled := i.handled + [b], missed := if Live(k) then i.missed else i.missed + [b]), down[1..])
  {
    hide Datas, Flat, Accounted;
    DatasPop(down);
    assert i.handled + ([b] + Datas(down[1..])) == i.handled + [b] + Datas(down[1..]);
    FlatSnoc(i.handled, b);
    if Live(k) {
      AccountLive(Flat(i.handled), i.written, i.torn, i.missed, b);
    } else {
      AccountMissed(Flat(i.handled), i.written, i.torn, i.missed, b);
    }
  }

  /** The heart of the inward direction: a frame that is handled was sent, a frame that was
      sent followed the client's answer, and the write that follows is the next one. */
  lemma {:induction false} DataKeeps(c: Tcp, b: Bytes, down: seq<Msg>, up: seq<Msg>)
    requires Inv(c, down, up)
    ensures Keeps(ClientData(c, b), FromDown(Data(b)), down, up)
  {
    hide InwardOk, OutwardOk, Flat, Datas;
    if c.k.hand.None? && Arrived(FromDown(Data(b)), down, up) {
      HandleOne(c.s.phase, c.k, c.i, b, down);
    }
  }

  lemma {:induction false} WriteKeeps(c: Tcp, n: nat, ok: bool, down: seq<Msg>, up: seq<Msg>)
    requires Inv(c, down, up)
    ensures Keeps(ClientWrite(c, n, ok), Nothing, down, up)
  {
    hide Datas, Flat, Accounted, OutwardOk;
    if c.k.hand.Some? && n <= |c.k.hand.value| && (ok ==> n == |c.k.hand.value|) {
      AccountWritten(Flat(c.i.handled), c.i.written, c.k.hand.value, c.i.torn, c.i.missed, n, Live(c.k), ok);
    }
  }

  lemma {:induction false} ClientCloseKeeps(c: Tcp, down: seq<Msg>, up: seq<Msg>)
    requires Inv(c, down, up)
    ensures Keeps(ClientClose(c), FromDown(Close), down, up)
  {
    hide Datas, Flat;
    if down != [] {
      DatasPop(down);
    }
  }

  lemma {:induction false} RefuseKeeps(c: Tcp, ok: bool, down: seq<Msg>, up: seq<Msg>)
    requires Inv(c, down, up)
    ensures Keeps(Refuse(c, ok), Nothing, down, up)
  {
    hide Datas, Flat;
    DatasPush(up, ok, Close);
  }

  lemma {:induction false} AckKeeps(c: Tcp, ok: bool, down: seq<Msg>, up: seq<Msg>)
    requires Inv(c, down, up)
    ensures Keeps(SendAck(c, ok), Nothing, down, up)
  {
    hide Datas, Flat;
    DatasPush(up, ok, TCPOpen);
  }

  lemma {:induction false} ReadHistory(s: Server, o: Outward, b: Bytes, up: seq<Msg>)
    requires OutwardOk(Reading, s, o, up)
    ensures OutwardOk(Reading, s, o.(read := o.read + b, sent := o.sent + [b]), up + [Data(b)])
    ensures OutwardOk(Exiting, s, o.(read := o.read + b, unsent := o.unsent + b), up)
  {
    hide Datas, Flat, Inbox.Valid;
    DatasPush(up, true, Data(b));
    FlatSnoc(o.sent, b);
    assert s.inbox.processed + (Datas(up) + [b]) == o.sent + [b];
    assert Flat(o.sent) + [] + b == Flat(o.sent) + b + [] == Flat(o.sent) + ([] + b);
  }

  lemma {:induction false} LeavingOutward(s: Server, o: Outward, up: seq<Msg>)
    ensures OutwardOk(Exiting, s, o, up) ==> OutwardOk(ExitDone, s, o, up) && OutwardOk(ExitOff, s, o, up)
    ensures OutwardOk(ExitOff, s, o, up) ==> OutwardOk(Ended, s, o, up)
  {
    hide Datas, Flat, Inbox.Valid;
  }

  lemma {:induction false} LocalReadKeeps(c: Tcp, b: Bytes, ok: bool, down: seq<Msg>, up: seq<Msg>)
    requires Inv(c, down, up)
    ensures Keeps(LocalRead(c, b, ok), Nothing, down, up)
  {
    hide OutwardOk, Flat, Datas, Accounted;
    if c.k.phase == Reading {
      ReadHistory(c.s, c.o, b, up);
    }
  }

  lemma {:induction false} LocalEndKeeps(c: Tcp, b: Bytes, down: seq<Msg>, up: seq<Msg>)
    requires Inv(c, down, up)
    ensures Keeps(LocalEnd(c, b), Nothing, down, up) && Keeps(ExitCloseDone(c), Nothing, down, up)
  {
    hide Datas, Flat, OutwardOk;
    if c.k.phase == Reading {
      ReadHistory(c.s, c.o, b, up);
    }
    LeavingOutward(c.s, c.o, up);
  }

  lemma {:induction false} LocalCloseKeeps(c: Tcp, ok: bool, down: seq<Msg>, up: seq<Msg>)
    requires Inv(c, down, up)
    ensures Keeps(ExitUnregister(c), Nothing, down, up) && Keeps(ExitSendClose(c, ok), Nothing, down, up)
  {
    hide Datas, Flat;
    DatasPush(up, ok, Close);
  }

  lemma {:induction false} RelayStepKeeps(c: Tcp, a: Act, down: seq<Msg>, up: seq<Msg>)
    requires Inv(c, down, up)
    ensures Keeps(RelayEffect(c, a), Takes(a), down, up)
  {
    hide Keeps, Inv, CloseDone, DrainStop, DrainWrite, GiveUp, List, PublicRead, RemovePending, SeeReady, SendClose,
         SendOpen, SendPrefix;
    match a
    case SList => ListKeeps(c, down, up);
    case SOpen(ok) => OpenKeeps(c, ok, down, up);
    case SReady | SGiveUp => WaitKeeps(c, down, up);
    case SPrefix(ok) => PrefixKeeps(c, ok, down, up);
    case SRead(b, ok, last) => ReadKeeps(c, b, ok, last, down, up);
    case SClose(ok) => CloseKeeps(c, ok, down, up);
    case SUnlist => UnlistKeeps(c, down, up);
    case SDone => DoneKeeps(c, down, up);
    case DWrite(n, ok) => DrainKeeps(c, n, ok, down, up);
    case DStop => DrainStopKeeps(c, down, up);
    case _ => NoneKeeps(Takes(a), down, up);
  }

  lemma {:induction false} LoopStepKeeps(c: Tcp, a: Act, down: seq<Msg>, up: seq<Msg>)
    requires Inv(c, down, up)
    ensures Keeps(LoopEffect(c, a), Takes(a), down, up)
  {
    hide Keeps, Inv, Cleanup, ClientClose, ClientData, ClientOpen, ClientShut, ClientWrite, HandleClose, HandleReady,
         ReceiveDropped, ReceiveLookup, ReceiveQueued, ReceiveStalled;
    match a
    case FReady => ReadyKeeps(c, down, up);
    case FData(b) => LookupKeeps(c, b, down, up);
    case FEnqueue => QueuedKeeps(c, down, up);
    case FDrop => DroppedKeeps(c, down, up);
    case FStall(ok) => StallKeeps(c, ok, down, up);
    case FClose => HandleCloseKeeps(c, down, up);
    case FCleanup => CleanupKeeps(c, down, up);
    case KOpen => ClientOpenKeeps(c, down, up);
    case KData(b) => DataKeeps(c, b, down, up);
    case KWrite(n, ok) => WriteKeeps(c, n, ok, down, up);
    case KClose => ClientCloseKeeps(c, down, up);
    case KShut => ShutKeeps(c, down, up);
    case _ => NoneKeeps(Takes(a), down, up);
  }

  lemma {:induction false} DialStepKeeps(c: Tcp, a: Act, down: seq<Msg>, up: seq<Msg>)
    requires Inv(c, down, up)
    ensures Keeps(DialEffect(c, a), Takes(a), down, up)
  {
    hide Keeps, Inv, ExitCloseDone, ExitSendClose, ExitUnregister, LocalEnd, LocalRead, Refuse, Register, SendAck;
    match a
    case CRefuse(ok) => RefuseKeeps(c, ok, down, up);
    case CRegister => RegisterKeeps(c, down, up);
    case CAck(ok) => AckKeeps(c, ok, down, up);
    case CRead(b, ok) => LocalReadKeeps(c, b, ok, down, up);
    case CEnd(b) => LocalEndKeeps(c, b, down, up);
    case CDone => LocalEndKeeps(c, [], down, up);
    case COff => LocalCloseKeeps(c, true, down, up);
    case CClose(ok) => LocalCloseKeeps(c, ok, down, up);
    case _ => NoneKeeps(Takes(a), down, up);
  }

  /** Every step of either side keeps the invariant. */
  lemma {:induction false} StepKeeps(c: Tcp, a: Act, down: seq<Msg>, up: seq<Msg>)
    requires Inv(c, down, up)
    ensures Keeps(Effect(c, a), Takes(a), down, up)
  {
    hide Keeps, Inv;
    if IsRelayAct(a) {
      RelayStepKeeps(c, a, down, up);
    } else if IsDialAct(a) {
      DialStepKeeps(c, a, down, up);
    } else {
      LoopStepKeeps(c, a, down, up);
    }
  }

  // ---- What the invariant promises --------------------------------------

  /** Where every byte peeked or read is, in every state: written, in hand, left over by a
      failed write, handled while the relay was not live, on the link, or not sent. */
  lemma {:induction false} InwardAccount(c: Tcp, down: seq<Msg>, up: seq<Msg>)
    requires Inv(c, down, up)
    ensures c.i.prefix + c.i.read ==
              c.i.written + InHand(c.k.hand) + c.i.torn + Flat(c.i.missed) + Flat(Datas(down)) + c.i.unsent
  {
    hide Flat, Datas, Order, OutwardOk;
    FlatAppend(c.i.handled, Datas(down));
  }

  /** And on the way back. */
  lemma {:induction false} OutwardAccount(c: Tcp, down: seq<Msg>, up: seq<Msg>)
    requires Inv(c, down, up)
    ensures var b := c.s.inbox;
            c.o.read == c.o.written + c.o.torn + Flat(b.queue) + InHand(b.hand) + Flat(b.refused) + Flat(Datas(up))
                        + c.o.unsent
  {
    hide Flat, Datas, Order, InwardOk;
    FlatAppend(c.s.inbox.processed, Datas(up));
    InboxFlat(c.s.inbox);
  }

  /** In every state a run can reach: the bytes written to the local connection are a prefix
      of what was peeked and read from the public one; the bytes written to the public
      connection are a prefix of what was read from the local one; the chunks the drain took
      are a prefix of the payloads processed; no data frame was handled before the relay was
      registered unless a close had been sent; and a listed ID has open channels. */
  lemma {:induction false} Promises(c: Tcp, down: seq<Msg>, up: seq<Msg>)
    requires Inv(c, down, up)
    ensures c.i.written <= c.i.prefix + c.i.read
    ensures c.o.written <= c.o.read
    ensures c.s.inbox.taken <= c.s.inbox.processed
    ensures !c.n.early
    ensures c.s.inbox.listed ==> !c.s.inbox.closed && !c.s.inbox.done
  {
    FlatPrefix(c.i.handled, c.i.sent);
    FlatPrefix(c.s.inbox.taken, c.s.inbox.processed);
    FlatPrefix(c.s.inbox.processed, c.o.sent);
  }

  // ---- What a step sends, and what it does to the table -------------------

  predicate Kind(m: Msg) { m == TCPOpen || m.Data? || m == Close }

  /** Only frames of its kind are sent, only the opening frame makes the client begin, and the
      client's entry comes and goes with the steps that say so. */
  ghost predicate Told(c: Tcp, a: Act, e: Option<Out<Tcp>>) {
    e.Some? ==>
      && (forall m :: m in e.value.down ==> Kind(m)) && (forall m :: m in e.value.up ==> Kind(m))
      && (c.k.phase == Absent && e.value.core.k.phase != Absent ==> Takes(a) == FromDown(TCPOpen))
      && (e.value.core.k.phase == Absent ==> c.k.phase == Absent)
      && e.value.core.k.relay == (a.CRegister? || (c.k.relay && !(a.COff? || a.KShut? || a.KClose?)))
  }

  lemma {:induction false} RelayTold(c: Tcp, a: Act)
    ensures Told(c, a, RelayEffect(c, a))
  {
  }

  lemma {:induction false} LoopTold(c: Tcp, a: Act)
    ensures Told(c, a, LoopEffect(c, a))
  {
  }

  lemma {:induction false} DialTold(c: Tcp, a: Act)
    ensures Told(c, a, DialEffect(c, a))
  {
  }

  lemma {:induction false} StepTold(c: Tcp, a: Act)
    ensures Told(c, a, Effect(c, a))
  {
    hide Told, RelayEffect, LoopEffect, DialEffect;
    RelayTold(c, a);
    LoopTold(c, a);
    DialTold(c, a);
  }

  // ---- No frame of its kind blocks a link ---------------------------------

  /** The steps that take a frame from the link to the client, and to the server. */
  function DownAct(m: Msg): Act { match m case Data(b) => KData(b) case Close => KClose case _ => KOpen }

  function UpAct(m: Msg): Act { match m case Data(b) => FData(b) case Close => FClose case _ => FReady }

  lemma {:induction false} HeadTaken(c: Tcp, down: seq<Msg>, up: seq<Msg>)
    requires Inv(c, down, up) && down != [] && Kind(down[0]) && c.k.hand.None?
    ensures Takes(DownAct(down[0])) == FromDown(down[0]) && Effect(c, DownAct(down[0])).Some?
  {
    hide InwardOk, OutwardOk, RelayEffect, DialEffect;
    assert down[0] in down;
    assert down[0] == TCPOpen ==> c.k.phase == Absent;
    hide Inv;
  }

  lemma {:induction false} UpTaken(c: Tcp, m: Msg)
    requires Kind(m) && c.s.inbox.hand.None?
    ensures Takes(UpAct(m)) == FromUp(m) && Effect(c, UpAct(m)).Some?
  {
  }

  /** A loop that is busy with a payload can give it up. */
  lemma {:induction false} HandFreed(c: Tcp)
    ensures c.k.hand.Some? ==>
              var e := Effect(c, KWrite(0, false));
              Takes(KWrite(0, false)) == Nothing && e.Some? && e.value.core.k.hand.None?
    ensures c.s.inbox.hand.Some? ==>
              var e := Effect(c, FStall(true));
              Takes(FStall(true)) == Nothing && e.Some? && e.value.core.s.inbox.hand.None?
  {
  }
}
