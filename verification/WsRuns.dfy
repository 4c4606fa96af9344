/**
 Whole runs of an upgraded connection in which no step is faulty: exactly when everything
 arrives, either way, and when the relay leaves the client's table. One run loses the first
 bytes, and in one the close comes before registration.
 */
module WsRuns {
  import opened Basics
  import opened Link
  import opened WsRelay
  import opened WsComplete

  datatype St = St(c: Ws, down: seq<Msg>, up: seq<Msg>)

  ghost predicate Step(st: St, a: Act, n: St) {
    && Effect(st.c, a).Some? && Arrived(Takes(a), st.down, st.up)
    && var o := Effect(st.c, a).value;
       n == St(o.core, After(st.down, Takes(a).FromDown?, o.down), After(st.up, Takes(a).FromUp?, o.up))
  }

  ghost predicate Run(sts: seq<St>, acts: seq<Act>) {
    && |sts| == |acts| + 1 && sts[0] == St(Init(), [], [])
    && forall i :: 0 <= i < |acts| ==> Step(sts[i], acts[i], sts[i + 1]) && !Faulty(acts[i])
  }

  // ---- What a run without a faulty step promises --------------------------

  /** The client handles data while its relay is not live, or a failing read loses its bytes. */
  predicate Misses(c: Ws, a: Act) { (a.LData? && !Live(c.k) && a.b != []) || (a.REnd? && a.b != []) }

  /** The read that ends the local stream loses its bytes. */
  predicate LosesTail(a: Act) { a.KEnd? && a.b != [] }

  ghost predicate NothingLost(i: Inward)
    requires i.lost <= |i.handled|
  {
    Flat(i.handled[..i.lost]) == [] && Flat(i.missed) == [] && i.unsent == []
  }

  /** What a step adds to the histories. */
  ghost predicate Noted(c: Ws, a: Act, n: Ws)
    requires c.i.lost <= |c.i.handled|
  {
    && n.i.lost <= |n.i.handled|
    && NothingLost(n.i) == (NothingLost(c.i) && !Misses(c, a))
    && (n.o.unsent == []) == (c.o.unsent == [] && !LosesTail(a))
  }

  lemma {:induction false} DataNoted(k: Client, i: Inward, b: Bytes)
    requires i.lost <= |i.handled| && (!k.everRelay ==> i.lost == |i.handled| && !k.relay)
    ensures NothingLost(Handled(k, i, b)) == (NothingLost(i) && (Live(k) || b == []))
  {
    FlatSnoc(i.missed, b);
    FlatSnoc(i.handled, b);
    assert k.everRelay ==> (i.handled + [b])[..i.lost] == i.handled[..i.lost];
    assert i.handled[..|i.handled|] == i.handled && (i.handled + [b])[..|i.handled| + 1] == i.handled + [b];
    hide Flat;
  }

  lemma {:induction false} ServeNoted(c: Ws, a: Act)
    requires c.i.lost <= |c.i.handled| && ServeEffect(c, a).Some? && !Faulty(a)
    ensures Noted(c, a, ServeEffect(c, a).value.core)
  {
    hide Flat, Inbox.Valid;
  }

  lemma {:induction false} LoopNoted(c: Ws, a: Act)
    requires c.i.lost <= |c.i.handled| && (!c.k.everRelay ==> c.i.lost == |c.i.handled| && !c.k.relay)
    requires LoopEffect(c, a).Some? && !Faulty(a)
    ensures Noted(c, a, LoopEffect(c, a).value.core)
  {
    hide Flat, Inbox.Valid;
    if a.LData? {
      DataNoted(c.k, c.i, a.b);
      hide NothingLost, Handled;
    }
  }

  lemma {:induction false} LocalNoted(c: Ws, a: Act)
    requires c.i.lost <= |c.i.handled| && LocalEffect(c, a).Some? && !Faulty(a)
    ensures Noted(c, a, LocalEffect(c, a).value.core)
  {
    hide Flat, Inbox.Valid;
  }

  lemma {:induction false} StepNoted(c: Ws, a: Act, down: seq<Msg>, up: seq<Msg>)
    requires Inv(c, down, up) && Effect(c, a).Some? && !Faulty(a)
    ensures c.i.lost <= |c.i.handled| && Noted(c, a, Effect(c, a).value.core)
  {
    hide Order, OutwardOk, Noted, ServeEffect, LoopEffect, LocalEffect, Faulty, Accounted, Flat, Datas;
    if IsServeAct(a) {
      ServeNoted(c, a);
    } else if IsLocalAct(a) {
      LocalNoted(c, a);
    } else {
      LoopNoted(c, a);
    }
  }

  ghost predicate NoneMissed(sts: seq<St>, acts: seq<Act>, i: nat)
    requires i < |sts| && |sts| == |acts| + 1
  {
    forall j :: 0 <= j < i ==> !Misses(sts[j].c, acts[j])
  }

  ghost predicate NoTailLost(acts: seq<Act>, i: nat)
    requires i <= |acts|
  {
    forall j :: 0 <= j < i ==> !LosesTail(acts[j])
  }

  /** The server's close was handled before the relay was registered. */
  ghost predicate ClosedEarly(sts: seq<St>, acts: seq<Act>, i: nat)
    requires i < |sts| && |sts| == |acts| + 1
  {
    exists j :: 0 <= j < i && ClosesEarly(sts[j].c, acts[j])
  }

  lemma {:induction false} RunGood(sts: seq<St>, acts: seq<Act>, i: nat)
    requires Run(sts, acts) && i < |sts|
    ensures Good(sts[i].c, ClosedEarly(sts, acts, i), sts[i].down, sts[i].up)
    ensures sts[i].c.i.lost <= |sts[i].c.i.handled| && (NothingLost(sts[i].c.i) <==> NoneMissed(sts, acts, i))
    ensures sts[i].c.o.unsent == [] <==> NoTailLost(acts, i)
  {
    hide Calm, Closed, Inv, Effect, Takes, Faulty, Misses, LosesTail, ClosesEarly;
    if i == 0 {
      InitGood();
    } else {
      hide NothingLost;
      RunGood(sts, acts, i - 1);
      var st, a := sts[i - 1], acts[i - 1];
      assert Step(st, a, sts[i - 1 + 1]);
      StepGood(st.c, a, ClosedEarly(sts, acts, i - 1), st.down, st.up);
      StepNoted(st.c, a, st.down, st.up);
      assert ClosedEarly(sts, acts, i) <==> ClosedEarly(sts, acts, i - 1) || ClosesEarly(st.c, a);
    }
  }

  /** With no data on the link and none in hand, the local application has all that was read from
      the viewer if and only if no byte was handled while the relay was not live, before its
      registration or after its end, and none came with the read that ended the stream. */
  lemma {:induction false} ArrivesIff(sts: seq<St>, acts: seq<Act>)
    requires Run(sts, acts) && Datas(sts[|acts|].down) == [] && sts[|acts|].c.k.hand.None?
    ensures sts[|acts|].c.i.written == sts[|acts|].c.i.read <==> NoneMissed(sts, acts, |acts|)
  {
    hide Inv, Closed, Step, NoneMissed, NoTailLost, ClosedEarly, Datas, Flat, Faulty;
    var st := sts[|acts|];
    RunGood(sts, acts, |acts|);
    ArrivedIff(st.c, st.down, st.up);
  }

  /** Once the drain is over, the viewer has all that was read from the local application if and
      only if no byte came with the read that ended the local stream. */
  lemma {:induction false} ReturnsIff(sts: seq<St>, acts: seq<Act>)
    requires Run(sts, acts) && sts[|acts|].c.s.drain == Stopped
    ensures sts[|acts|].c.o.written == sts[|acts|].c.o.read <==> NoTailLost(acts, |acts|)
  {
    hide Good, Step, NoneMissed, NoTailLost, ClosedEarly, Flat, Faulty;
    var st := sts[|acts|];
    RunGood(sts, acts, |acts|);
    ReturnedWhole(st.c, ClosedEarly(sts, acts, |acts|), st.down, st.up);
  }

  /** Once the server's close has been handled, the relay is in the client's table if and only if
      the close came before registration and the relay's goroutine has not taken it off. */
  lemma {:induction false} StaysListedIff(sts: seq<St>, acts: seq<Act>)
    requires Run(sts, acts) && sts[|acts|].c.s.reader == Stopped && Close !in sts[|acts|].down
    ensures sts[|acts|].c.k.relay <==> ClosedEarly(sts, acts, |acts|) && Serving(sts[|acts|].c.k.phase)
  {
    hide Good, Step, NoneMissed, NoTailLost, ClosedEarly, Flat, Faulty, Serving;
    var st := sts[|acts|];
    RunGood(sts, acts, |acts|);
    ListedIff(st.c, ClosedEarly(sts, acts, |acts|), st.down, st.up);
  }

  // ---- Showing runs -------------------------------------------------------

  ghost predicate Reached(st: St) { exists sts, acts :: Run(sts, acts) && sts[|acts|] == st }

  lemma {:induction false} Begins()
    ensures Reached(St(Init(), [], []))
  {
    var sts, acts: seq<Act> := [St(Init(), [], [])], [];
    assert Run(sts, acts);
  }

  lemma {:induction false} Extends(st: St, a: Act, n: St)
    requires Reached(st) && Step(st, a, n) && !Faulty(a)
    ensures Reached(n)
  {
    hide Step, Faulty;
    var sts, acts :| Run(sts, acts) && sts[|acts|] == st;
    var s', a' := sts + [n], acts + [a];
    forall i | 0 <= i < |a'| ensures Step(s'[i], a'[i], s'[i + 1]) && !Faulty(a'[i]) {
      if i < |acts| {
        assert s'[i] == sts[i] && s'[i + 1] == sts[i + 1] && a'[i] == acts[i];
      }
    }
    assert Run(s', a') && s'[|a'|] == n;
  }

  lemma {:induction false} Silent(c: Ws, a: Act, n: Ws, down: seq<Msg>, up: seq<Msg>)
    requires Reached(St(c, down, up)) && !Faulty(a) && Takes(a) == Nothing && Effect(c, a) == Just(n)
    ensures Reached(St(n, down, up))
  {
    hide Reached, Effect, Takes, Faulty;
    Extends(St(c, down, up), a, St(n, down, up));
  }

  lemma {:induction false} Sends(c: Ws, a: Act, n: Ws, m: Msg, ups: bool)
    requires Reached(St(c, [], [])) && !Faulty(a) && Takes(a) == Nothing
    requires Effect(c, a) == Some(if ups then Out(n, [], [m]) else Out(n, [m], []))
    ensures Reached(if ups then St(n, [], [m]) else St(n, [m], []))
  {
    hide Reached, Effect, Takes, Faulty;
    assert [] + [m] == [m];
    Extends(St(c, [], []), a, if ups then St(n, [], [m]) else St(n, [m], []));
  }

  lemma {:induction false} Receives(c: Ws, a: Act, n: Ws, m: Msg, ups: bool)
    requires Reached(if ups then St(c, [], [m]) else St(c, [m], [])) && !Faulty(a) && Effect(c, a) == Just(n)
    requires Takes(a) == if ups then FromUp(m) else FromDown(m)
    ensures Reached(St(n, [], []))
  {
    hide Reached, Effect, Takes, Faulty;
    assert [m][1..] == [];
    Extends(if ups then St(c, [], [m]) else St(c, [m], []), a, St(n, [], []));
  }

  // ---- The upgrade ------------------------------------------------------

  function Answered(): Ws {
    var c := Init();
    c.(s := c.s.(phase := Relaying, inbox := EMPTY_INBOX.(made := true, listed := true), resp := Some(Switching),
                 reader := Running, drain := Running),
       k := c.k.(phase := Switched))
  }

  function Asked(): Ws {
    var c := Init();
    c.(s := c.s.(phase := Waiting, inbox := EMPTY_INBOX.(made := true, listed := true)))
  }

  lemma {:induction false} Asks()
    ensures Reached(St(Asked(), [Req(true)], []))
  {
    hide Reached, LoopEffect, LocalEffect;
    var c := Init();
    Begins();
    var c1 := c.(s := c.s.(phase := Listed, inbox := EMPTY_INBOX.(made := true, listed := true)));
    Silent(c, SList, c1, [], []);
    Sends(c1, SSend(true), Asked(), Req(true), false);
  }

  lemma {:induction false} Switches()
    ensures Reached(St(Asked().(k := Asked().k.(phase := Switched)), [], [Res(Switching)]))
  {
    Asks();
    hide Reached, ServeEffect;
    var c := Asked();
    var c1 := c.(k := c.k.(phase := Spawned));
    Receives(c, LReq, c1, Req(true), false);
    Sends(c1, KSwitch(true, None), c.(k := c.k.(phase := Switched)), Res(Switching), true);
  }

  /** The server relays; the client has yet to register. */
  lemma {:induction false} Answers()
    ensures Reached(St(Answered(), [], []))
  {
    Switches();
    hide Reached, LocalEffect;
    var c := Asked().(k := Asked().k.(phase := Switched));
    var c1 := c.(s := c.s.(resp := Some(Switching)));
    Receives(c, FRes(Switching, true), c1, Res(Switching), true);
    Silent(c1, SGet(true), Answered(), [], []);
  }

  // ---- Early bytes ------------------------------------------------------

  /** A chunk is read and handled while the relay is not registered: it is gone. */
  lemma {:induction false} ChunkLost(c: Ws, b: Bytes)
    requires Reached(St(c, [], [])) && c.s.reader == Running && |b| <= STREAM_BUF_SIZE
    requires c.k.hand.None? && !c.k.everRelay && !c.k.relay
    ensures Reached(St(c.(i := c.i.(read := c.i.read + b, sent := c.i.sent + [b], handled := c.i.handled + [b],
                                    lost := c.i.lost + 1)), [], []))
  {
    hide Reached, LocalEffect;
    var c1 := c.(i := c.i.(read := c.i.read + b, sent := c.i.sent + [b]));
    Sends(c, RRead(b, true), c1, Data(b), false);
    Receives(c1, LData(b), c1.(i := c1.i.(handled := c1.i.handled + [b], lost := c1.i.lost + 1)), Data(b), false);
  }

  /** A chunk is read, handled and written. */
  lemma {:induction false} ChunkWritten(c: Ws, b: Bytes)
    requires Reached(St(c, [], [])) && c.s.reader == Running && |b| <= STREAM_BUF_SIZE
    requires c.k.hand.None? && c.k.everRelay && c.k.relay && !c.k.done
    ensures Reached(St(c.(i := c.i.(read := c.i.read + b, sent := c.i.sent + [b], handled := c.i.handled + [b],
                                    written := c.i.written + b)), [], []))
  {
    hide Reached, LocalEffect;
    var c1 := c.(i := c.i.(read := c.i.read + b, sent := c.i.sent + [b]));
    Sends(c, RRead(b, true), c1, Data(b), false);
    var c2 := c1.(i := c1.i.(handled := c1.i.handled + [b]), k := c1.k.(hand := Some(b)));
    Receives(c1, LData(b), c2, Data(b), false);
    assert b[..|b|] == b && c2.i.torn + b[|b|..] == c2.i.torn;
    Silent(c2, LWrite(|b|, true), c2.(i := c2.i.(written := c2.i.written + b), k := c.k), [], []);
  }

  lemma {:induction false} Registers(c: Ws)
    requires Reached(St(c, [], [])) && c.k.phase == Switched
    ensures Reached(St(c.(k := c.k.(phase := Reading, relay := true, everRelay := true)), [], []))
  {
    hide Reached, ServeEffect, LoopEffect;
    Silent(c, KRegister, c.(k := c.k.(phase := Reading, relay := true, everRelay := true)), [], []);
  }

  /** No step is faulty; a chunk came before the relay was registered, and the local application
      sees only what came after it. */
  lemma {:induction false} EarlyBytesAreLost(early: Bytes, late: Bytes)
    requires 0 < |early| <= STREAM_BUF_SIZE && |late| <= STREAM_BUF_SIZE
    ensures exists st :: Reached(st) && st.c.i.read == early + late && st.c.i.lost == 1 && st.c.i.written == late
  {
    Answers();
    hide Reached, Effect;
    var c := Answered();
    ChunkLost(c, early);
    assert [] + early == early && [] + late == late;
    var c1 := c.(i := c.i.(read := c.i.read + early, sent := c.i.sent + [early],
                           handled := c.i.handled + [early], lost := 1));
    Registers(c1);
    var c2 := c1.(k := c1.k.(phase := Reading, relay := true, everRelay := true));
    ChunkWritten(c2, late);
    var n := c2.(i := c2.i.(read := c2.i.read + late, sent := c2.i.sent + [late], handled := c2.i.handled + [late],
                            written := c2.i.written + late));
    assert Reached(St(n, [], []));
  }

  /** The viewer leaves, and the close is handled while the relay is not registered. */
  lemma {:induction false} CloseDropped(c: Ws)
    requires Reached(St(c, [], [])) && c.s.reader == Running && c.k.hand.None? && !c.k.relay
    ensures Reached(St(c.(s := c.s.(reader := Stopped)), [], []))
  {
    hide Reached, LocalEffect;
    assert c.i.read + [] == c.i.read && c.i.unsent + [] == c.i.unsent;
    var c1 := c.(s := c.s.(reader := Closing));
    Silent(c, REnd([]), c1, [], []);
    var c2 := c.(s := c.s.(reader := Stopped));
    Sends(c1, RClose(true), c2, Close, false);
    Receives(c2, LClose, c2, Close, false);
  }

  /** No step is faulty, the viewer is gone and both links are empty; but the relay, registered
      after the close, is listed and live, and the server has nothing more to send. */
  lemma {:induction false} RelayStaysListed()
    ensures exists st :: Reached(st) && st.down == [] && st.up == [] && st.c.s.reader == Stopped && Live(st.c.k)
  {
    Answers();
    hide Reached, Effect;
    var c := Answered();
    CloseDropped(c);
    var c1 := c.(s := c.s.(reader := Stopped));
    Registers(c1);
    assert Reached(St(c1.(k := c1.k.(phase := Reading, relay := true, everRelay := true)), [], []));
  }
}
