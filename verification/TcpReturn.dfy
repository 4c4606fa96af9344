/**
 The way back of a relayed connection, local to public. Where nothing failed, the public side is
 short of exactly what the drain left queued, what came after the entry was gone, and what came
 with the read that ended the local stream: nothing, when the drain saw the end of its stream.
 */
module TcpReturn {
  import opened Basics
  import opened Link
  import opened TcpRelay

  /** Nothing follows the client's close. */
  ghost predicate CloseEnds(p: ClientPhase, up: seq<Msg>) {
    forall j :: 0 <= j < |up| && up[j] == Close ==> j == |up| - 1 && p == Ended
  }

  ghost predicate AllTaken(b: Inbox) { b.hand.None? && b.refused == [] }

  ghost predicate Back(b: Inbox, drain: Drain, p: ClientPhase, o: Outward, cut: bool, up: seq<Msg>) {
    && o.torn == []
    && CloseEnds(p, up)
    && (b.closed ==> up == [] && p == Ended && AllTaken(b))
    && (drain == Stopped && !cut ==> b.closed && b.queue == [])
  }

  ghost predicate BackOf(c: Tcp, up: seq<Msg>) {
    c.n.clean ==> Back(c.s.inbox, c.s.drain, c.k.phase, c.o, c.n.cut, up)
  }

  ghost predicate Good(c: Tcp, down: seq<Msg>, up: seq<Msg>) { Inv(c, down, up) && BackOf(c, up) }

  lemma {:induction false} InitGood(prefix: Bytes)
    ensures Good(Init(prefix), [], [])
  {
    hide Flat;
    FlatNone<byte>([]);
  }

  ghost predicate Stays(e: Option<Out<Tcp>>, r: Recv, down: seq<Msg>, up: seq<Msg>) {
    e.Some? && Arrived(r, down, up) ==> BackOf(e.value.core, After(up, r.FromUp?, e.value.up))
  }

  lemma {:induction false} NoneStays(r: Recv, down: seq<Msg>, up: seq<Msg>)
    ensures Stays(None, r, down, up)
  {
  }

  // ---- The server -------------------------------------------------------

  lemma {:induction false} ListStays(c: Tcp, down: seq<Msg>, up: seq<Msg>)
    requires Good(c, down, up)
    ensures Stays(List(c), Nothing, down, up)
  {
    hide Flat, Datas, InwardOk, CloseEnds;
  }

  lemma {:induction false} ServerStays(c: Tcp, ok: bool, b: Bytes, last: bool, down: seq<Msg>, up: seq<Msg>)
    requires Good(c, down, up)
    ensures Stays(SendOpen(c, ok), Nothing, down, up) && Stays(SeeReady(c), Nothing, down, up)
    ensures Stays(GiveUp(c), Nothing, down, up)
    ensures Stays(PublicRead(c, b, ok, last), Nothing, down, up) && Stays(SendClose(c, ok), Nothing, down, up)
  {
    hide Inv, Back;
  }

  lemma {:induction false} ReleaseStays(c: Tcp, ok: bool, down: seq<Msg>, up: seq<Msg>)
    requires Good(c, down, up)
    ensures Stays(SendPrefix(c, ok), Nothing, down, up)
  {
    hide Flat, Datas, InwardOk, CloseEnds;
  }

  lemma {:induction false} UnlistStays(c: Tcp, down: seq<Msg>, up: seq<Msg>)
    requires Good(c, down, up)
    ensures Stays(RemovePending(c), Nothing, down, up) && Stays(CloseDone(c), Nothing, down, up)
  {
    hide Inv, Flat, CloseEnds;
  }

  lemma {:induction false} DrainStays(c: Tcp, n: nat, ok: bool, down: seq<Msg>, up: seq<Msg>)
    requires Good(c, down, up)
    ensures Stays(DrainWrite(c, n, ok), Nothing, down, up)
  {
    hide Inv, Flat, CloseEnds;
  }

  lemma {:induction false} DrainStopStays(c: Tcp, down: seq<Msg>, up: seq<Msg>)
    requires Good(c, down, up)
    ensures Stays(DrainStop(c), Nothing, down, up)
  {
    hide Flat, Datas, Order, InwardOk, CloseEnds, AllTaken;
  }

  lemma {:induction false} ReceiveStays(c: Tcp, b: Bytes, down: seq<Msg>, up: seq<Msg>)
    requires Good(c, down, up)
    ensures Stays(HandleReady(c), FromUp(TCPOpen), down, up) && Stays(ReceiveLookup(c, b), FromUp(Data(b)), down, up)
  {
    hide Inv, Flat;
  }

  lemma {:induction false} SelectStays(c: Tcp, ok: bool, down: seq<Msg>, up: seq<Msg>)
    requires Good(c, down, up)
    ensures Stays(ReceiveQueued(c), Nothing, down, up) && Stays(ReceiveDropped(c), Nothing, down, up)
    ensures Stays(ReceiveStalled(c, ok), Nothing, down, up) && Stays(Cleanup(c), Nothing, down, up)
  {
    hide Inv, Flat, CloseEnds;
  }

  /** In a run without failures the client's close is the end: every payload came before it. */
  lemma {:induction false} HandleCloseStays(c: Tcp, down: seq<Msg>, up: seq<Msg>)
    requires Good(c, down, up)
    ensures Stays(HandleClose(c), FromUp(Close), down, up)
  {
    hide Flat, Datas, Order, InwardOk;
  }

  // ---- The client -------------------------------------------------------

  lemma {:induction false} LoopStays(c: Tcp, b: Bytes, n: nat, ok: bool, down: seq<Msg>, up: seq<Msg>)
    requires Good(c, down, up)
    ensures Stays(ClientData(c, b), FromDown(Data(b)), down, up) && Stays(ClientWrite(c, n, ok), Nothing, down, up)
    ensures Stays(ClientClose(c), FromDown(Close), down, up) && Stays(ClientShut(c), Nothing, down, up)
  {
    hide Inv, Back;
  }

  lemma {:induction false} DialStays(c: Tcp, ok: bool, down: seq<Msg>, up: seq<Msg>)
    requires Good(c, down, up)
    ensures Stays(ClientOpen(c), FromDown(TCPOpen), down, up) && Stays(Register(c), Nothing, down, up)
    ensures Stays(Refuse(c, ok), Nothing, down, up) && Stays(SendAck(c, ok), Nothing, down, up)
  {
    hide Inv, Flat;
  }

  lemma {:induction false} ReadBack(b: Inbox, drain: Drain, o: Outward, x: Bytes, cut: bool, up: seq<Msg>)
    requires Back(b, drain, Reading, o, cut, up)
    ensures Back(b, drain, Reading, o.(read := o.read + x, sent := o.sent + [x]), cut, up + [Data(x)])
    ensures Back(b, drain, Exiting, o.(read := o.read + x, unsent := o.unsent + x), cut, up)
  {
  }

  lemma {:induction false} ReadStays(c: Tcp, b: Bytes, ok: bool, down: seq<Msg>, up: seq<Msg>)
    requires Good(c, down, up)
    ensures Stays(LocalRead(c, b, ok), Nothing, down, up) && Stays(LocalEnd(c, b), Nothing, down, up)
  {
    hide Inv, Back;
    if c.n.clean && c.k.phase == Reading {
      ReadBack(c.s.inbox, c.s.drain, c.o, b, c.n.cut, up);
    }
  }

  lemma {:induction false} ExitStays(c: Tcp, ok: bool, down: seq<Msg>, up: seq<Msg>)
    requires Good(c, down, up)
    ensures Stays(ExitCloseDone(c), Nothing, down, up) && Stays(ExitUnregister(c), Nothing, down, up)
    ensures Stays(ExitSendClose(c, ok), Nothing, down, up)
  {
    hide Inv, Flat;
  }

  // ---- Every step -------------------------------------------------------

  lemma {:induction false} RelayStepStays(c: Tcp, a: Act, down: seq<Msg>, up: seq<Msg>)
    requires Good(c, down, up)
    ensures Stays(RelayEffect(c, a), Takes(a), down, up)
  {
    hide Stays, Good, Inv, BackOf, CloseDone, DrainStop, DrainWrite, GiveUp, List, PublicRead, RemovePending, SeeReady,
         SendClose, SendOpen, SendPrefix;
    match a
    case SList => ListStays(c, down, up);
    case SOpen(ok) => ServerStays(c, ok, [], true, down, up);
    case SReady | SGiveUp => ServerStays(c, true, [], true, down, up);
    case SPrefix(ok) => ReleaseStays(c, ok, down, up);
    case SRead(b, ok, last) => ServerStays(c, ok, b, last, down, up);
    case SClose(ok) => ServerStays(c, ok, [], true, down, up);
    case SUnlist | SDone => UnlistStays(c, down, up);
    case DWrite(n, ok) => DrainStays(c, n, ok, down, up);
    case DStop => DrainStopStays(c, down, up);
    case _ => NoneStays(Takes(a), down, up);
  }

  lemma {:induction false} LoopStepStays(c: Tcp, a: Act, down: seq<Msg>, up: seq<Msg>)
    requires Good(c, down, up)
    ensures Stays(LoopEffect(c, a), Takes(a), down, up)
  {
    hide Stays, Good, Inv, BackOf, Cleanup, ClientClose, ClientData, ClientOpen, ClientShut, ClientWrite, HandleClose,
         HandleReady, ReceiveDropped, ReceiveLookup, ReceiveQueued, ReceiveStalled;
    match a
    case FReady => ReceiveStays(c, [], down, up);
    case FData(b) => ReceiveStays(c, b, down, up);
    case FEnqueue | FDrop | FCleanup => SelectStays(c, true, down, up);
    case FStall(ok) => SelectStays(c, ok, down, up);
    case FClose => HandleCloseStays(c, down, up);
    case KOpen => DialStays(c, true, down, up);
    case KData(b) => LoopStays(c, b, 0, true, down, up);
    case KWrite(n, ok) => LoopStays(c, [], n, ok, down, up);
    case KClose | KShut => LoopStays(c, [], 0, true, down, up);
    case _ => NoneStays(Takes(a), down, up);
  }

  lemma {:induction false} DialStepStays(c: Tcp, a: Act, down: seq<Msg>, up: seq<Msg>)
    requires Good(c, down, up)
    ensures Stays(DialEffect(c, a), Takes(a), down, up)
  {
    hide Stays, Good, Inv, BackOf, ExitCloseDone, ExitSendClose, ExitUnregister, LocalEnd, LocalRead, Refuse, Register,
         SendAck;
    match a
    case CRefuse(ok) => DialStays(c, ok, down, up);
    case CAck(ok) => DialStays(c, ok, down, up);
    case CRegister => DialStays(c, true, down, up);
    case CRead(b, ok) => ReadStays(c, b, ok, down, up);
    case CEnd(b) => ReadStays(c, b, true, down, up);
    case CClose(ok) => ExitStays(c, ok, down, up);
    case CDone | COff => ExitStays(c, true, down, up);
    case _ => NoneStays(Takes(a), down, up);
  }

  lemma {:induction false} StepGood(c: Tcp, a: Act, down: seq<Msg>, up: seq<Msg>)
    requires Good(c, down, up) && Effect(c, a).Some? && Arrived(Takes(a), down, up)
    ensures var o := Effect(c, a).value;
            Good(o.core, After(down, Takes(a).FromDown?, o.down), After(up, Takes(a).FromUp?, o.up))
  {
    hide Inv, BackOf, RelayEffect, LoopEffect, DialEffect;
    StepKeeps(c, a, down, up);
    if IsRelayAct(a) {
      RelayStepStays(c, a, down, up);
    } else if IsDialAct(a) {
      DialStepStays(c, a, down, up);
    } else {
      LoopStepStays(c, a, down, up);
    }
  }

  /** What the public side is short of when nothing failed and nothing is under way: what the
      drain left in its queue, the payloads given up by the frame loop, and the bytes that came
      with the failing read. */
  lemma {:induction false} ReturnedIff(c: Tcp, down: seq<Msg>, up: seq<Msg>)
    requires Good(c, down, up)
    requires c.n.clean && Datas(up) == [] && c.s.inbox.hand.None?
    ensures c.o.read == c.o.written + Flat(c.s.inbox.queue) + Flat(c.s.inbox.refused) + c.o.unsent
    ensures c.o.written == c.o.read <==>
              Flat(c.s.inbox.queue) == [] && Flat(c.s.inbox.refused) == [] && c.o.unsent == []
  {
    hide Inv, Flat, Datas;
    OutwardAccount(c, down, up);
    FlatNone(Datas(up));
  }

  /** A drain that stopped at the end of its stream left nothing behind. */
  lemma {:induction false} ReturnedWhole(c: Tcp, down: seq<Msg>, up: seq<Msg>)
    requires Good(c, down, up)
    requires c.n.clean && !c.n.cut && c.s.drain == Stopped
    ensures c.o.read == c.o.written + c.o.unsent
  {
    assert Datas([]) == [];
    hide Inv, Flat, Datas;
    ReturnedIff(c, down, up);
    FlatNone(c.s.inbox.queue);
    FlatNone(c.s.inbox.refused);
  }
}
