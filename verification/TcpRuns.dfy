/**
 Whole runs of one relayed connection in which no step is faulty. What is read on one side is
 delivered on the other if and only if none of the steps that give data up was taken; in
 particular when nobody hangs up early. One run shows that this happens, two more what is lost
 when either side hangs up first.
 */
module TcpRuns {
  import opened Basics
  import opened Link
  import opened TcpRelay
  import TcpComplete
  import TcpReturn

  datatype St = St(c: Tcp, down: seq<Msg>, up: seq<Msg>)

  ghost predicate Step(st: St, a: Act, n: St) {
    && Effect(st.c, a).Some? && Arrived(Takes(a), st.down, st.up)
    && var o := Effect(st.c, a).value;
       n == St(o.core, After(st.down, Takes(a).FromDown?, o.down), After(st.up, Takes(a).FromUp?, o.up))
  }

  ghost predicate Run(sts: seq<St>, acts: seq<Act>) {
    && |sts| == |acts| + 1 && sts[0] == St(Init(sts[0].c.i.prefix), [], [])
    && forall i :: 0 <= i < |acts| ==> Step(sts[i], acts[i], sts[i + 1])
  }

  /** Something fails, times out or is refused, or a side is torn down. */
  predicate Faulty(a: Act) {
    match a
    case SOpen(ok) => !ok
    case SPrefix(ok) => !ok
    case SRead(_, ok, _) => !ok
    case SClose(ok) => !ok
    case DWrite(_, ok) => !ok
    case KWrite(_, ok) => !ok
    case CAck(ok) => !ok
    case CRead(_, ok) => !ok
    case CClose(ok) => !ok
    case SGiveUp | FStall(_) | FCleanup | KShut | CRefuse(_) => true
    case _ => false
  }

  /** The local side ends the relay while it is live. */
  predicate HangsUp(c: Tcp, a: Act) { a.CEnd? && Live(c.k) }

  /** The client handles data while its relay is not live. */
  predicate Misses(c: Tcp, a: Act) { a.KData? && !Live(c.k) && a.b != [] }

  /** The server's loop finds no entry or gives a payload up, or a failing local read loses its
      bytes. */
  predicate GivesUp(c: Tcp, a: Act) {
    || (a.FData? && !c.s.inbox.listed && a.b != [])
    || (a.FDrop? && InHand(c.s.inbox.hand) != [])
    || (a.CEnd? && a.b != [])
  }

  /** The drain stops before the end of its stream, or a failing local read loses its bytes. */
  predicate Cuts(c: Tcp, a: Act) {
    (a.DStop? && !(c.s.inbox.closed && c.s.inbox.queue == [])) || (a.CEnd? && a.b != [])
  }

  ghost predicate AllArrived(c: Tcp) { Flat(c.i.missed) == [] }

  ghost predicate AllAccepted(c: Tcp) { Flat(c.s.inbox.refused) == [] && c.o.unsent == [] }

  /** What the step adds to the history. */
  ghost predicate Noted(c: Tcp, a: Act, n: Tcp) {
    && n.n.clean == c.n.clean && n.n.localFirst == (c.n.localFirst || HangsUp(c, a))
    && (n.n.cut || n.o.unsent != []) == (c.n.cut || c.o.unsent != [] || Cuts(c, a))
    && AllArrived(n) == (AllArrived(c) && !Misses(c, a))
    && AllAccepted(n) == (AllAccepted(c) && !GivesUp(c, a))
  }

  /** The step leaves the client and what the frame loop gave up alone. */
  ghost predicate Aside(c: Tcp, a: Act, n: Tcp) {
    && n.n == c.n.(cut := c.n.cut || Cuts(c, a))
    && n.i.missed == c.i.missed && n.s.inbox.refused == c.s.inbox.refused && n.o.unsent == c.o.unsent
  }

  lemma {:induction false} RelayAside(c: Tcp, a: Act)
    requires RelayEffect(c, a).Some? && !Faulty(a) && !a.DWrite? && !a.DStop?
    ensures Aside(c, a, RelayEffect(c, a).value.core)
  {
    hide Flat, Inbox.Valid, DrainWrite, DrainStop;
  }

  lemma {:induction false} DrainAside(c: Tcp, a: Act)
    requires RelayEffect(c, a).Some? && !Faulty(a) && (a.DWrite? || a.DStop?)
    ensures Aside(c, a, RelayEffect(c, a).value.core)
  {
    hide Flat, Inbox.Valid;
  }

  lemma {:induction false} FaultFreeRelay(c: Tcp, a: Act)
    requires RelayEffect(c, a).Some? && !Faulty(a) && IsRelayAct(a)
    ensures Noted(c, a, RelayEffect(c, a).value.core)
  {
    hide Flat, Inbox.Valid, RelayEffect, Faulty;
    if a.DWrite? || a.DStop? {
      DrainAside(c, a);
    } else {
      RelayAside(c, a);
    }
  }

  lemma {:induction false} FaultFreeLoop(c: Tcp, a: Act)
    requires LoopEffect(c, a).Some? && !Faulty(a)
    ensures Noted(c, a, LoopEffect(c, a).value.core)
  {
    if a.KData? {
      FlatSnoc(c.i.missed, a.b);
    } else if a.FData? {
      FlatSnoc(c.s.inbox.refused, a.b);
    } else if a.FDrop? {
      FlatSnoc(c.s.inbox.refused, InHand(c.s.inbox.hand));
    }
    hide Flat;
  }

  lemma {:induction false} FaultFreeDial(c: Tcp, a: Act)
    requires DialEffect(c, a).Some? && !Faulty(a)
    ensures Noted(c, a, DialEffect(c, a).value.core)
  {
    hide Flat;
  }

  lemma {:induction false} FaultFreeStep(c: Tcp, a: Act)
    requires Effect(c, a).Some? && !Faulty(a)
    ensures Noted(c, a, Effect(c, a).value.core)
  {
    hide Faulty, Noted, RelayEffect, LoopEffect, DialEffect;
    if IsRelayAct(a) {
      FaultFreeRelay(c, a);
    } else if IsDialAct(a) {
      FaultFreeDial(c, a);
    } else {
      FaultFreeLoop(c, a);
    }
  }

  ghost predicate FaultFree(acts: seq<Act>, i: nat)
    requires i <= |acts|
  {
    forall j :: 0 <= j < i ==> !Faulty(acts[j])
  }

  /** None of the first i steps loses data on the way in... */
  ghost predicate NoneMissed(sts: seq<St>, acts: seq<Act>, i: nat)
    requires i < |sts| && |sts| == |acts| + 1
  {
    forall j :: 0 <= j < i ==> !Misses(sts[j].c, acts[j])
  }

  /** ... or on the way back. */
  ghost predicate NoneGivenUp(sts: seq<St>, acts: seq<Act>, i: nat)
    requires i < |sts| && |sts| == |acts| + 1
  {
    forall j :: 0 <= j < i ==> !GivesUp(sts[j].c, acts[j])
  }

  /** The first i steps: none is faulty, and the local side does not hang up first. */
  ghost predicate Smooth(sts: seq<St>, acts: seq<Act>, i: nat)
    requires i < |sts| && |sts| == |acts| + 1
  {
    forall j :: 0 <= j < i ==> !Faulty(acts[j]) && !HangsUp(sts[j].c, acts[j])
  }

  /** None is faulty, and nothing on the way back is cut. */
  ghost predicate SmoothBack(sts: seq<St>, acts: seq<Act>, i: nat)
    requires i < |sts| && |sts| == |acts| + 1
  {
    forall j :: 0 <= j < i ==> !Faulty(acts[j]) && !Cuts(sts[j].c, acts[j])
  }

  lemma {:induction false} RunGood(sts: seq<St>, acts: seq<Act>, i: nat)
    requires Run(sts, acts) && i < |sts|
    ensures TcpComplete.Good(sts[i].c, sts[i].down, sts[i].up) && TcpReturn.Good(sts[i].c, sts[i].down, sts[i].up)
    ensures FaultFree(acts, i) ==>
              && sts[i].c.n.clean
              && (AllArrived(sts[i].c) <==> NoneMissed(sts, acts, i))
              && (AllAccepted(sts[i].c) <==> NoneGivenUp(sts, acts, i))
    ensures Smooth(sts, acts, i) ==> FaultFree(acts, i) && !sts[i].c.n.localFirst
    ensures SmoothBack(sts, acts, i) ==> FaultFree(acts, i) && !sts[i].c.n.cut && sts[i].c.o.unsent == []
  {
    hide TcpComplete.Good, TcpReturn.Good, Effect, Takes, Faulty, HangsUp, Cuts, Misses, GivesUp;
    if i == 0 {
      TcpComplete.InitGood(sts[0].c.i.prefix);
      TcpReturn.InitGood(sts[0].c.i.prefix);
    } else {
      hide AllArrived, AllAccepted;
      RunGood(sts, acts, i - 1);
      var st, a := sts[i - 1], acts[i - 1];
      assert Step(st, a, sts[i - 1 + 1]);
      TcpComplete.StepGood(st.c, a, st.down, st.up);
      TcpReturn.StepGood(st.c, a, st.down, st.up);
      if !Faulty(a) {
        FaultFreeStep(st.c, a);
      }
    }
  }

  /** Without a faulty step, once the server's relay is finished, its data handled and the last
      payload written, the local side has exactly what was peeked and read if and only if no
      data was handled while the relay was not live. */
  lemma {:induction false} DeliveredIff(sts: seq<St>, acts: seq<Act>)
    requires Run(sts, acts) && FaultFree(acts, |acts|)
    requires TcpComplete.Finished(sts[|acts|].c.s.phase) && Datas(sts[|acts|].down) == [] && sts[|acts|].c.k.hand.None?
    ensures sts[|acts|].c.i.written == sts[|acts|].c.i.prefix + sts[|acts|].c.i.read <==> NoneMissed(sts, acts, |acts|)
  {
    hide TcpComplete.Good, TcpReturn.Good, Step, FaultFree, NoneMissed, NoneGivenUp, TcpComplete.Finished, Datas;
    var st := sts[|acts|];
    RunGood(sts, acts, |acts|);
    TcpComplete.DeliveredIff(st.c, st.down, st.up);
  }

  /** A smooth run meets that condition. */
  lemma {:induction false} SmoothDelivery(sts: seq<St>, acts: seq<Act>)
    requires Run(sts, acts) && Smooth(sts, acts, |acts|)
    requires TcpComplete.Finished(sts[|acts|].c.s.phase) && Datas(sts[|acts|].down) == [] && sts[|acts|].c.k.hand.None?
    ensures NoneMissed(sts, acts, |acts|) && sts[|acts|].c.i.written == sts[|acts|].c.i.prefix + sts[|acts|].c.i.read
  {
    hide TcpReturn.Good, Step, FaultFree, NoneMissed, NoneGivenUp, Smooth, SmoothBack, TcpComplete.Finished, Datas, Inv;
    var st := sts[|acts|];
    RunGood(sts, acts, |acts|);
    FlatNone(st.c.i.missed);
    DeliveredIff(sts, acts);
  }

  /** On the way back, without a faulty step and with nothing under way: the public side has
      exactly what was read from the local one if and only if nothing is left in the queue and
      no step gave anything up. */
  lemma {:induction false} ReturnedIff(sts: seq<St>, acts: seq<Act>)
    requires Run(sts, acts) && FaultFree(acts, |acts|)
    requires Datas(sts[|acts|].up) == [] && sts[|acts|].c.s.inbox.hand.None?
    ensures sts[|acts|].c.o.written == sts[|acts|].c.o.read <==>
              Flat(sts[|acts|].c.s.inbox.queue) == [] && NoneGivenUp(sts, acts, |acts|)
  {
    hide TcpComplete.Good, TcpReturn.Good, Step, FaultFree, NoneMissed, NoneGivenUp, Datas, Flat;
    var st := sts[|acts|];
    RunGood(sts, acts, |acts|);
    TcpReturn.ReturnedIff(st.c, st.down, st.up);
  }

  /** So it has once the drain has stopped at the end of its stream. */
  lemma {:induction false} SmoothReturn(sts: seq<St>, acts: seq<Act>)
    requires Run(sts, acts) && SmoothBack(sts, acts, |acts|) && sts[|acts|].c.s.drain == Stopped
    ensures sts[|acts|].c.o.written == sts[|acts|].c.o.read
  {
    hide TcpComplete.Good, TcpReturn.Good, Step, FaultFree, NoneMissed, NoneGivenUp, Smooth, SmoothBack;
    var st := sts[|acts|];
    RunGood(sts, acts, |acts|);
    TcpReturn.ReturnedWhole(st.c, st.down, st.up);
  }

  /** Without a faulty step, a finished relay whose close has been handled is out of the client's
      table. */
  lemma {:induction false} RelayLeaves(sts: seq<St>, acts: seq<Act>)
    requires Run(sts, acts) && FaultFree(acts, |acts|)
    requires TcpComplete.Finished(sts[|acts|].c.s.phase) && Close !in sts[|acts|].down
    ensures !sts[|acts|].c.k.relay
  {
    hide TcpComplete.Good, TcpReturn.Good, Step, FaultFree, NoneMissed, NoneGivenUp, TcpComplete.Finished;
    var st := sts[|acts|];
    RunGood(sts, acts, |acts|);
    TcpComplete.LeavesTable(st.c, st.down, st.up);
  }

  // ---- Showing runs -------------------------------------------------------

  /** No step is faulty; if `smooth`, nobody hangs up first and nothing is cut either. */
  ghost predicate Allowed(c: Tcp, a: Act, smooth: bool) {
    !Faulty(a) && (smooth ==> !HangsUp(c, a) && !Cuts(c, a))
  }

  ghost predicate AllAllowed(sts: seq<St>, acts: seq<Act>, smooth: bool)
    requires |sts| == |acts| + 1
  {
    forall i :: 0 <= i < |acts| ==> Allowed(sts[i].c, acts[i], smooth)
  }

  /** Such a run gets there. */
  ghost predicate Reached(st: St, smooth: bool) {
    exists sts, acts :: Run(sts, acts) && sts[|acts|] == st && AllAllowed(sts, acts, smooth)
  }

  lemma {:induction false} Begins(prefix: Bytes, smooth: bool)
    ensures Reached(St(Init(prefix), [], []), smooth)
  {
    var sts, acts: seq<Act> := [St(Init(prefix), [], [])], [];
    assert Run(sts, acts) && AllAllowed(sts, acts, smooth);
  }

  lemma {:induction false} Extends(st: St, a: Act, n: St, smooth: bool)
    requires Reached(st, smooth) && Step(st, a, n) && Allowed(st.c, a, smooth)
    ensures Reached(n, smooth)
  {
    hide Step, Allowed;
    var sts, acts :| Run(sts, acts) && sts[|acts|] == st && AllAllowed(sts, acts, smooth);
    var s', a' := sts + [n], acts + [a];
    forall i | 0 <= i < |a'| ensures Step(s'[i], a'[i], s'[i + 1]) && Allowed(s'[i].c, a'[i], smooth) {
      if i < |acts| {
        assert s'[i] == sts[i] && s'[i + 1] == sts[i + 1] && a'[i] == acts[i];
      }
    }
    assert Run(s', a') && AllAllowed(s', a', smooth) && s'[|a'|] == n;
  }

  /** A run that is smooth meets the conditions of both delivery lemmas. */
  lemma {:induction false} SmoothRun(st: St) returns (sts: seq<St>, acts: seq<Act>)
    requires Reached(st, true)
    ensures Run(sts, acts) && sts[|acts|] == st && Smooth(sts, acts, |acts|) && SmoothBack(sts, acts, |acts|)
  {
    hide Step, Faulty;
    sts, acts :| Run(sts, acts) && sts[|acts|] == st && AllAllowed(sts, acts, true);
    assert forall j :: 0 <= j < |acts| ==> Allowed(sts[j].c, acts[j], true);
  }

  /** A step that touches no link. */
  lemma {:induction false} Silent(c: Tcp, a: Act, n: Tcp, down: seq<Msg>, up: seq<Msg>,
                                  smooth: bool)
    requires Reached(St(c, down, up), smooth) && Allowed(c, a, smooth)
    requires Takes(a) == Nothing && Effect(c, a) == Just(n)
    ensures Reached(St(n, down, up), smooth)
  {
    hide Reached, Effect, Takes, Allowed;
    Extends(St(c, down, up), a, St(n, down, up), smooth);
  }

  lemma {:induction false} SendsDown(c: Tcp, a: Act, n: Tcp, m: Msg, down: seq<Msg>, up: seq<Msg>,
                                  smooth: bool)
    requires Reached(St(c, down, up), smooth) && Allowed(c, a, smooth)
    requires Takes(a) == Nothing && Effect(c, a) == Some(Out(n, [m], []))
    ensures Reached(St(n, down + [m], up), smooth)
  {
    hide Reached, Effect, Takes, Allowed;
    Extends(St(c, down, up), a, St(n, down + [m], up), smooth);
  }

  lemma {:induction false} SendsUp(c: Tcp, a: Act, n: Tcp, m: Msg, down: seq<Msg>, up: seq<Msg>,
                                  smooth: bool)
    requires Reached(St(c, down, up), smooth) && Allowed(c, a, smooth)
    requires Takes(a) == Nothing && Effect(c, a) == Some(Out(n, [], [m]))
    ensures Reached(St(n, down, up + [m]), smooth)
  {
    hide Reached, Effect, Takes, Allowed;
    Extends(St(c, down, up), a, St(n, down, up + [m]), smooth);
  }

  lemma {:induction false} TakesDown(c: Tcp, a: Act, n: Tcp, m: Msg, down: seq<Msg>, up: seq<Msg>,
                                  smooth: bool)
    requires Reached(St(c, [m] + down, up), smooth) && Allowed(c, a, smooth)
    requires Takes(a) == FromDown(m) && Effect(c, a) == Just(n)
    ensures Reached(St(n, down, up), smooth)
  {
    hide Reached, Effect, Takes, Allowed;
    assert ([m] + down)[1..] == down;
    Extends(St(c, [m] + down, up), a, St(n, down, up), smooth);
  }

  lemma {:induction false} TakesUp(c: Tcp, a: Act, n: Tcp, m: Msg, down: seq<Msg>, up: seq<Msg>,
                                  smooth: bool)
    requires Reached(St(c, down, [m] + up), smooth) && Allowed(c, a, smooth)
    requires Takes(a) == FromUp(m) && Effect(c, a) == Just(n)
    ensures Reached(St(n, down, up), smooth)
  {
    hide Reached, Effect, Takes, Allowed;
    assert ([m] + up)[1..] == up;
    Extends(St(c, down, [m] + up), a, St(n, down, up), smooth);
  }

  /** The relay is established, and the server has read a last chunk. */
  function Relayed(b: Bytes): Tcp {
    Tcp(Server(Closing, EMPTY_INBOX.(made := true, listed := true), true, Running, false),
        Client(Reading, true, false, None, true, false), Inward([], b, [b], [], [], [], [], []),
        Outward([], [], [], [], []), Notes(false, true, false, false, false))
  }

  function Opened(prefix: Bytes): Tcp {
    var c := Init(prefix);
    c.(s := c.s.(phase := Waiting, inbox := EMPTY_INBOX.(made := true, listed := true)),
       k := c.k.(phase := Registered, relay := true, everRelay := true))
  }

  function Asked(prefix: Bytes): Tcp {
    var c := Init(prefix);
    c.(s := c.s.(phase := Waiting, inbox := EMPTY_INBOX.(made := true, listed := true)))
  }

  lemma {:induction false} Asks(prefix: Bytes, smooth: bool)
    ensures Reached(St(Asked(prefix), [TCPOpen] + [], []), smooth)
  {
    hide Reached, LoopEffect, DialEffect;
    var c := Init(prefix);
    Begins(prefix, smooth);
    var c1 := c.(s := c.s.(phase := Listed, inbox := EMPTY_INBOX.(made := true, listed := true)));
    Silent(c, SList, c1, [], [], smooth);
    assert [] + [TCPOpen] == [TCPOpen] + [];
    SendsDown(c1, SOpen(true), Asked(prefix), TCPOpen, [], [], smooth);
  }

  lemma {:induction false} Opens(prefix: Bytes, smooth: bool)
    ensures Reached(St(Opened(prefix), [], []), smooth)
  {
    Asks(prefix, smooth);
    hide Reached, RelayEffect;
    var c := Asked(prefix);
    var c1 := c.(k := c.k.(phase := Spawned));
    TakesDown(c, KOpen, c1, TCPOpen, [], [], smooth);
    Silent(c1, CRegister, Opened(prefix), [], [], smooth);
  }

  function Acknowledged(prefix: Bytes): Tcp {
    var c := Opened(prefix);
    c.(s := c.s.(ready := true), k := c.k.(phase := Reading))
  }

  lemma {:induction false} Acknowledges(prefix: Bytes, smooth: bool)
    ensures Reached(St(Acknowledged(prefix), [], []), smooth)
  {
    Opens(prefix, smooth);
    hide Reached, RelayEffect;
    var c := Opened(prefix);
    var c1 := c.(k := c.k.(phase := Reading));
    SendsUp(c, CAck(true), c1, TCPOpen, [], [], smooth);
    assert [] + [TCPOpen] == [TCPOpen] + [];
    TakesUp(c1, FReady, Acknowledged(prefix), TCPOpen, [], [], smooth);
  }

  lemma {:induction false} Relays(b: Bytes, smooth: bool)
    requires 0 < |b| <= STREAM_BUF_SIZE
    ensures Reached(St(Relayed(b), [Data(b)] + [], []), smooth)
  {
    Acknowledges([], smooth);
    hide Reached, LoopEffect, DialEffect;
    var c := Acknowledged([]);
    var c1 := c.(s := c.s.(phase := Released));
    Silent(c, SReady, c1, [], [], smooth);
    var c2 := c.(s := c.s.(phase := Pumping, drain := Running));
    Silent(c1, SPrefix(true), c2, [], [], smooth);
    assert c2.i.read + b == b && c2.i.sent + [b] == [b] && [] + [Data(b)] == [Data(b)] + [];
    SendsDown(c2, SRead(b, true, true), Relayed(b), Data(b), [], [], smooth);
  }

  /** The local side's answer is read, sent and received. */
  lemma {:induction false} AnswerArrives(c: Tcp, x: Bytes, down: seq<Msg>, smooth: bool)
    requires Reached(St(c, down, []), smooth) && c.k.phase == Reading && |x| <= STREAM_BUF_SIZE
    requires c.s.inbox == EMPTY_INBOX.(made := true, listed := true) && c.o == Outward([], [], [], [], [])
    ensures var i := c.s.inbox.(processed := [x], hand := Some(x));
            Reached(St(c.(s := c.s.(inbox := i), o := Outward(x, [x], [], [], [])), down, []), smooth)
  {
    hide Reached, RelayEffect;
    var i := c.s.inbox;
    assert c.o.read + x == x && c.o.sent + [x] == [x] && [] + [Data(x)] == [Data(x)] + [];
    var c1 := c.(o := Outward(x, [x], [], [], []));
    SendsUp(c, CRead(x, true), c1, Data(x), down, [], smooth);
    assert i.processed + [x] == [x];
    var c2 := c1.(s := c1.s.(inbox := i.(processed := [x], hand := Some(x))));
    TakesUp(c1, FData(x), c2, Data(x), down, [], smooth);
  }

  /** It is queued for the drain. */
  lemma {:induction false} AnswerQueued(c: Tcp, x: Bytes, down: seq<Msg>, smooth: bool)
    requires Reached(St(c, down, []), smooth)
    requires c.s.inbox == EMPTY_INBOX.(made := true, listed := true, processed := [x], hand := Some(x))
    ensures var i := EMPTY_INBOX.(made := true, listed := true, processed := [x], queue := [x]);
            Reached(St(c.(s := c.s.(inbox := i)), down, []), smooth)
  {
    hide Reached, RelayEffect, DialEffect;
    var i := c.s.inbox;
    assert i.queue + [x] == [x];
    Silent(c, FEnqueue, c.(s := c.s.(inbox := i.(hand := None, queue := [x]))), down, [], smooth);
  }

  // ---- Hanging up first loses data ----------------------------------------

  function Dropped(b: Bytes): Tcp {
    var c := Relayed(b);
    c.(s := c.s.(phase := Leaving), k := c.k.(phase := ExitDone, done := true),
       i := c.i.(handled := [b], missed := [b]), n := c.n.(localFirst := true))
  }

  function HungUp(b: Bytes): Tcp {
    var c := Relayed(b);
    c.(k := c.k.(phase := ExitDone, done := true), n := c.n.(localFirst := true))
  }

  function HangingUp(b: Bytes): Tcp {
    var c := Relayed(b);
    c.(k := c.k.(phase := Exiting), n := c.n.(localFirst := true))
  }

  lemma {:induction false} LocalEnds(b: Bytes)
    requires 0 < |b| <= STREAM_BUF_SIZE
    ensures Reached(St(HangingUp(b), [Data(b)] + [], []), false)
  {
    Relays(b, false);
    hide Reached, RelayEffect, LoopEffect;
    var c := Relayed(b);
    assert c.o.read + [] == c.o.read && c.o.unsent + [] == c.o.unsent;
    Silent(c, CEnd([]), HangingUp(b), [Data(b)] + [], [], false);
  }

  lemma {:induction false} LocalHangsUp(b: Bytes)
    requires 0 < |b| <= STREAM_BUF_SIZE
    ensures Reached(St(HungUp(b), [Data(b)] + [], []), false)
  {
    LocalEnds(b);
    hide Reached, RelayEffect, LoopEffect;
    Silent(HangingUp(b), CDone, HungUp(b), [Data(b)] + [], [], false);
  }

  lemma {:induction false} Drops(b: Bytes)
    requires 0 < |b| <= STREAM_BUF_SIZE
    ensures Reached(St(Dropped(b), [Close] + [], []), false)
  {
    LocalHangsUp(b);
    hide Reached, DialEffect;
    var c := HungUp(b);
    var c1 := c.(i := c.i.(handled := [b], missed := [b]));
    assert c.i.handled + [b] == [b] && c.i.missed + [b] == [b];
    TakesDown(c, KData(b), c1, Data(b), [], [], false);
    assert [] + [Close] == [Close] + [];
    SendsDown(c1, SClose(true), Dropped(b), Close, [], [], false);
  }

  /** No step is faulty, the server's relay is finished and the link is drained; but the local
      side hung up first, and nothing of what was read has reached it. */
  lemma {:induction false} HangUpLosesData(b: Bytes)
    requires 0 < |b| <= STREAM_BUF_SIZE
    ensures exists st :: Reached(st, false) && TcpComplete.Finished(st.c.s.phase) && st.down == [] && st.c.k.hand.None?
              && st.c.i.prefix + st.c.i.read == b && st.c.i.written == []
  {
    Drops(b);
    hide Reached;
    var c := Dropped(b);
    var n := c.(k := c.k.(relay := false));
    TakesDown(c, KClose, n, Close, [], [], false);
    assert [] + b == b;
    assert Reached(St(n, [], []), false);
  }

  /** The server's relay is over while a chunk waits for the drain. */
  lemma {:induction false} RelayGoes(c: Tcp, down: seq<Msg>)
    requires Reached(St(c, down, []), false) && c.s.phase == Closing && c.n.clean
    ensures var i := c.s.inbox.(listed := false, done := true);
            Reached(St(c.(s := c.s.(phase := Gone, inbox := i)), down + [Close], []), false)
  {
    hide Reached, LoopEffect, DialEffect;
    var c1 := c.(s := c.s.(phase := Leaving));
    SendsDown(c, SClose(true), c1, Close, down, [], false);
    var c2 := c1.(s := c1.s.(phase := Unlisted, inbox := c1.s.inbox.(listed := false)));
    Silent(c1, SUnlist, c2, down + [Close], [], false);
    Silent(c2, SDone, c2.(s := c2.s.(phase := Gone, inbox := c2.s.inbox.(done := true))), down + [Close], [], false);
  }

  /** No step is faulty either when the public side ends first: the drain stops on the relay's
      done signal with the local side's answer still queued, and none of it is written. */
  lemma {:induction false} PublicEndLosesAnswer(b: Bytes, x: Bytes)
    requires 0 < |b| <= STREAM_BUF_SIZE && |x| <= STREAM_BUF_SIZE
    ensures exists st :: Reached(st, false) && st.c.s.drain == Stopped && st.c.o.read == x && st.c.o.written == []
              && st.c.s.inbox.queue == [x] && st.up == []
  {
    Relays(b, false);
    hide Reached;
    var c := Relayed(b);
    var i := c.s.inbox;
    var down := [Data(b)] + [];
    AnswerArrives(c, x, down, false);
    AnswerQueued(c.(s := c.s.(inbox := i.(processed := [x], hand := Some(x))), o := Outward(x, [x], [], [], [])), x,
                 down, false);
    var c1 := c.(s := c.s.(inbox := i.(processed := [x], queue := [x])), o := Outward(x, [x], [], [], []));
    RelayGoes(c1, down);
    var c2 := c1.(s := c1.s.(phase := Gone, inbox := c1.s.inbox.(listed := false, done := true)));
    var n := c2.(s := c2.s.(drain := Stopped), n := c2.n.(cut := true));
    Silent(c2, DStop, n, down + [Close], [], false);
    assert Reached(St(n, down + [Close], []), false);
  }
}
