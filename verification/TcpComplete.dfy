/**
 When a relayed connection is delivered whole. A close frame means both "end of stream" and
 "abort", so completeness is conditional: where nothing failed, timed out or was refused, it is
 exactly that no data was handled while the relay was not live; and that is so when the local
 side did not hang up first.
 */
module TcpComplete {
  import opened Basics
  import opened Link
  import opened TcpRelay

  predicate Finished(p: ServerPhase) { p == Leaving || p == Unlisted || p == Gone }

  /** The only close on the link is the pump's own and nothing follows it. */
  ghost predicate CloseIsLast(p: ServerPhase, down: seq<Msg>) {
    forall j :: 0 <= j < |down| && down[j] == Close ==> j == |down| - 1 && Finished(p)
  }

  /** While the local side stays, the relay is live until the pump's close has been handled. */
  ghost predicate Lasting(p: ServerPhase, k: Client, closeHandled: bool, down: seq<Msg>) {
    && CloseIsLast(p, down)
    && (closeHandled ==> down == [] && Finished(p) && k.hand.None?)
    && (k.everRelay && !closeHandled ==> Live(k) && (k.phase == Registered || k.phase == Reading))
  }

  /** In a clean run nothing read stays unsent, no write leaves anything over, and the relay is
      gone from the client's table once the close has been handled. */
  ghost predicate Whole(p: ServerPhase, k: Client, i: Inward, n: Notes, down: seq<Msg>) {
    n.clean ==>
      && (!Early(p) ==> i.unsent == []) && i.torn == []
      && (k.closeSent || Finished(p) ==> k.everRelay)
      && (Finished(p) && Close !in down ==> !k.relay)
      && (!n.localFirst ==> i.missed == [] && Lasting(p, k, n.closeHandled, down))
  }

  ghost predicate Good(c: Tcp, down: seq<Msg>, up: seq<Msg>) {
    Inv(c, down, up) && Whole(c.s.phase, c.k, c.i, c.n, down)
  }

  lemma {:induction false} InitGood(prefix: Bytes)
    ensures Good(Init(prefix), [], [])
  {
  }

  ghost predicate StaysWhole(e: Option<Out<Tcp>>, r: Recv, down: seq<Msg>, up: seq<Msg>) {
    e.Some? && Arrived(r, down, up) ==>
      Whole(e.value.core.s.phase, e.value.core.k, e.value.core.i, e.value.core.n,
            After(down, r.FromDown?, e.value.down))
  }

  lemma {:induction false} NoneWhole(r: Recv, down: seq<Msg>, up: seq<Msg>)
    ensures StaysWhole(None, r, down, up)
  {
  }

  lemma {:induction false} ServerWhole(c: Tcp, down: seq<Msg>, up: seq<Msg>)
    requires Good(c, down, up)
    ensures StaysWhole(List(c), Nothing, down, up) && StaysWhole(SeeReady(c), Nothing, down, up)
    ensures StaysWhole(RemovePending(c), Nothing, down, up) && StaysWhole(CloseDone(c), Nothing, down, up)
  {
    hide Datas, Flat, OutwardOk, Accounted;
    assert c.i.sent == [] ==> Flat(c.i.sent) == [] by { FlatNone(c.i.sent); }
  }

  lemma {:induction false} DataAfterNoClose(p: ServerPhase, q: ServerPhase, down: seq<Msg>, b: Bytes)
    requires CloseIsLast(p, down) && !Finished(p)
    ensures CloseIsLast(q, down + [Data(b)]) && CloseIsLast(q, down)
  {
  }

  lemma {:induction false} OpenWhole(c: Tcp, ok: bool, down: seq<Msg>, up: seq<Msg>)
    requires Good(c, down, up)
    ensures StaysWhole(SendOpen(c, ok), Nothing, down, up) && StaysWhole(GiveUp(c), Nothing, down, up)
  {
    hide Datas, Flat, OutwardOk, Accounted;
  }

  lemma {:induction false} PrefixWhole(c: Tcp, ok: bool, down: seq<Msg>, up: seq<Msg>)
    requires Good(c, down, up)
    ensures StaysWhole(SendPrefix(c, ok), Nothing, down, up)
  {
    hide Datas, Flat, OutwardOk, CloseIsLast, Accounted, Order;
    if c.n.clean && !c.n.localFirst && c.s.phase == Released {
      DataAfterNoClose(c.s.phase, Pumping, down, c.i.prefix);
    }
  }

  lemma {:induction false} ReadWhole(c: Tcp, b: Bytes, ok: bool, last: bool, down: seq<Msg>, up: seq<Msg>)
    requires Good(c, down, up)
    ensures StaysWhole(PublicRead(c, b, ok, last), Nothing, down, up)
  {
    hide Inv, CloseIsLast;
    if c.n.clean && !c.n.localFirst && c.s.phase == Pumping {
      DataAfterNoClose(c.s.phase, if last then Closing else Pumping, down, b);
    }
  }

  lemma {:induction false} CloseWhole(c: Tcp, ok: bool, down: seq<Msg>, up: seq<Msg>)
    requires Good(c, down, up)
    ensures StaysWhole(SendClose(c, ok), Nothing, down, up)
  {
    hide Datas, Flat, OutwardOk, Accounted;
  }

  lemma {:induction false} DrainWhole(c: Tcp, n: nat, ok: bool, down: seq<Msg>, up: seq<Msg>)
    requires Good(c, down, up)
    ensures StaysWhole(DrainWrite(c, n, ok), Nothing, down, up) && StaysWhole(DrainStop(c), Nothing, down, up)
  {
    hide Inv, Flat;
  }

  lemma {:induction false} LoopWhole(c: Tcp, b: Bytes, down: seq<Msg>, up: seq<Msg>)
    requires Good(c, down, up)
    ensures StaysWhole(HandleReady(c), FromUp(TCPOpen), down, up)
    ensures StaysWhole(ReceiveLookup(c, b), FromUp(Data(b)), down, up)
    ensures StaysWhole(HandleClose(c), FromUp(Close), down, up)
  {
    hide Inv, Flat;
  }

  lemma {:induction false} SelectWhole(c: Tcp, ok: bool, down: seq<Msg>, up: seq<Msg>)
    requires Good(c, down, up)
    ensures StaysWhole(ReceiveQueued(c), Nothing, down, up) && StaysWhole(ReceiveDropped(c), Nothing, down, up)
    ensures StaysWhole(ReceiveStalled(c, ok), Nothing, down, up) && StaysWhole(Cleanup(c), Nothing, down, up)
  {
    hide Inv, Flat;
  }

  lemma {:induction false} ClientLoopWhole(c: Tcp, b: Bytes, down: seq<Msg>, up: seq<Msg>)
    requires Good(c, down, up)
    ensures StaysWhole(ClientOpen(c), FromDown(TCPOpen), down, up)
    ensures StaysWhole(ClientData(c, b), FromDown(Data(b)), down, up)
    ensures StaysWhole(ClientShut(c), Nothing, down, up)
  {
    hide Datas, Flat, OutwardOk, Accounted;
    if down != [] && down[0].Data? {
      DatasPop(down);
      assert c.i.sent != [];
    }
  }

  lemma {:induction false} WriteWhole(c: Tcp, n: nat, ok: bool, down: seq<Msg>, up: seq<Msg>)
    requires Good(c, down, up)
    ensures StaysWhole(ClientWrite(c, n, ok), Nothing, down, up)
  {
    hide Datas, Flat, OutwardOk, Accounted;
  }

  /** A close that reaches a live relay in a clean run is the end of the stream: every data
      frame came before it. */
  lemma {:induction false} ClientCloseWhole(c: Tcp, down: seq<Msg>, up: seq<Msg>)
    requires Good(c, down, up)
    ensures StaysWhole(ClientClose(c), FromDown(Close), down, up)
  {
    hide Datas, Flat, OutwardOk, Accounted;
  }

  lemma {:induction false} DialWhole(c: Tcp, ok: bool, down: seq<Msg>, up: seq<Msg>)
    requires Good(c, down, up)
    ensures StaysWhole(Refuse(c, ok), Nothing, down, up) && StaysWhole(SendAck(c, ok), Nothing, down, up)
    ensures StaysWhole(Register(c), Nothing, down, up)
  {
    hide Datas, Flat, OutwardOk, Accounted;
  }

  lemma {:induction false} LocalWhole(c: Tcp, b: Bytes, ok: bool, down: seq<Msg>, up: seq<Msg>)
    requires Good(c, down, up)
    ensures StaysWhole(LocalRead(c, b, ok), Nothing, down, up) && StaysWhole(LocalEnd(c, b), Nothing, down, up)
  {
    hide Datas, Flat, OutwardOk, Accounted;
  }

  lemma {:induction false} ExitWhole(c: Tcp, ok: bool, down: seq<Msg>, up: seq<Msg>)
    requires Good(c, down, up)
    ensures StaysWhole(ExitCloseDone(c), Nothing, down, up) && StaysWhole(ExitUnregister(c), Nothing, down, up)
    ensures StaysWhole(ExitSendClose(c, ok), Nothing, down, up)
  {
    hide Datas, Flat, OutwardOk, Accounted;
  }

  lemma {:induction false} RelayStepWhole(c: Tcp, a: Act, down: seq<Msg>, up: seq<Msg>)
    requires Good(c, down, up)
    ensures StaysWhole(RelayEffect(c, a), Takes(a), down, up)
  {
    hide StaysWhole, Good, CloseDone, DrainStop, DrainWrite, GiveUp, List, PublicRead, RemovePending, SeeReady,
         SendClose, SendOpen, SendPrefix;
    match a
    case SOpen(ok) => OpenWhole(c, ok, down, up);
    case SGiveUp => OpenWhole(c, true, down, up);
    case SPrefix(ok) => PrefixWhole(c, ok, down, up);
    case SRead(b, ok, last) => ReadWhole(c, b, ok, last, down, up);
    case SClose(ok) => CloseWhole(c, ok, down, up);
    case SList | SReady | SUnlist | SDone => ServerWhole(c, down, up);
    case DWrite(n, ok) => DrainWhole(c, n, ok, down, up);
    case DStop => DrainWhole(c, 0, true, down, up);
    case _ => NoneWhole(Takes(a), down, up);
  }

  lemma {:induction false} LoopStepWhole(c: Tcp, a: Act, down: seq<Msg>, up: seq<Msg>)
    requires Good(c, down, up)
    ensures StaysWhole(LoopEffect(c, a), Takes(a), down, up)
  {
    hide StaysWhole, Good, Cleanup, ClientClose, ClientData, ClientOpen, ClientShut, ClientWrite, HandleClose,
         HandleReady, ReceiveDropped, ReceiveLookup, ReceiveQueued, ReceiveStalled;
    match a
    case FReady | FClose => LoopWhole(c, [], down, up);
    case FData(b) => LoopWhole(c, b, down, up);
    case FStall(ok) => SelectWhole(c, ok, down, up);
    case FEnqueue | FDrop | FCleanup => SelectWhole(c, true, down, up);
    case KOpen | KShut => ClientLoopWhole(c, [], down, up);
    case KData(b) => ClientLoopWhole(c, b, down, up);
    case KWrite(n, ok) => WriteWhole(c, n, ok, down, up);
    case KClose => ClientCloseWhole(c, down, up);
    case _ => NoneWhole(Takes(a), down, up);
  }

  lemma {:induction false} DialStepWhole(c: Tcp, a: Act, down: seq<Msg>, up: seq<Msg>)
    requires Good(c, down, up)
    ensures StaysWhole(DialEffect(c, a), Takes(a), down, up)
  {
    hide StaysWhole, Good, ExitCloseDone, ExitSendClose, ExitUnregister, LocalEnd, LocalRead, Refuse, Register, SendAck;
    match a
    case CRefuse(ok) => DialWhole(c, ok, down, up);
    case CAck(ok) => DialWhole(c, ok, down, up);
    case CRegister => DialWhole(c, true, down, up);
    case CRead(b, ok) => LocalWhole(c, b, ok, down, up);
    case CEnd(b) => LocalWhole(c, b, true, down, up);
    case CClose(ok) => ExitWhole(c, ok, down, up);
    case CDone | COff => ExitWhole(c, true, down, up);
    case _ => NoneWhole(Takes(a), down, up);
  }

  lemma {:induction false} StepGood(c: Tcp, a: Act, down: seq<Msg>, up: seq<Msg>)
    requires Good(c, down, up) && Effect(c, a).Some? && Arrived(Takes(a), down, up)
    ensures var o := Effect(c, a).value;
            Good(o.core, After(down, Takes(a).FromDown?, o.down), After(up, Takes(a).FromUp?, o.up))
  {
    hide Inv, Whole, RelayEffect, LoopEffect, DialEffect;
    StepKeeps(c, a, down, up);
    if IsRelayAct(a) {
      RelayStepWhole(c, a, down, up);
    } else if IsDialAct(a) {
      DialStepWhole(c, a, down, up);
    } else {
      LoopStepWhole(c, a, down, up);
    }
  }

  /** When nothing failed, what the local side is short of, once the server's relay is finished
      and the link is drained, is exactly what was handled while the relay was not live. */
  lemma {:induction false} DeliveredIff(c: Tcp, down: seq<Msg>, up: seq<Msg>)
    requires Good(c, down, up)
    requires c.n.clean && Finished(c.s.phase) && Datas(down) == [] && c.k.hand.None?
    ensures c.i.prefix + c.i.read == c.i.written + Flat(c.i.missed)
    ensures c.i.written == c.i.prefix + c.i.read <==> Flat(c.i.missed) == []
  {
    hide Inv, Flat, Datas;
    InwardAccount(c, down, up);
    FlatNone(Datas(down));
  }

  /** The local side stayed: nothing was. */
  lemma {:induction false} DeliveredWhole(c: Tcp, down: seq<Msg>, up: seq<Msg>)
    requires Good(c, down, up)
    requires c.n.clean && !c.n.localFirst && Finished(c.s.phase) && Datas(down) == [] && c.k.hand.None?
    ensures c.i.written == c.i.prefix + c.i.read
  {
    hide Inv, Flat, Datas;
    DeliveredIff(c, down, up);
    FlatNone(c.i.missed);
  }

  /** When nothing failed, a finished relay is out of the client's table once its close has been
      handled; and whatever happened, once the client's goroutine is over. */
  lemma {:induction false} LeavesTable(c: Tcp, down: seq<Msg>, up: seq<Msg>)
    requires Good(c, down, up)
    ensures c.n.clean && Finished(c.s.phase) && Close !in down ==> !c.k.relay
    ensures c.k.phase == Ended ==> !c.k.relay
  {
    hide InwardOk, OutwardOk;
  }
}
