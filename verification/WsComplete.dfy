/**
 Upgraded connections without a faulty step: nothing sent back is given up, and the viewer's
 close is the last frame; what it finds depends on whether the relay was registered by then.
 */
module WsComplete {
  import opened Basics
  import opened Link
  import opened WsRelay

  /** Something fails, times out, is refused or torn down. */
  predicate Faulty(a: Act) {
    match a
    case SSend(ok) => !ok
    case SGet(ok) => !ok
    case RRead(_, ok) => !ok
    case RClose(ok) => !ok
    case DWrite(_, ok) => !ok
    case FRes(_, decodes) => !decodes
    case LWrite(_, ok) => !ok
    case KSwitch(ok, broken) => !ok || broken.Some?
    case KRead(_, ok) => !ok
    case KClose(ok) => !ok
    case STimeout | FStall(_) | FCleanup | LShut | KRefuse(_, _) => true
    case _ => false
  }

  predicate Leaves(p: ServerPhase) { p == Leaving || p == Unlisted || p == Gone }

  /** Nothing follows a close. */
  ghost predicate CloseLast(link: seq<Msg>) {
    forall j :: 0 <= j < |link| && link[j] == Close ==> j == |link| - 1
  }

  /** The entry is listed until the client's close, which comes after everything else. */
  ghost predicate Calm(s: Server, k: Client, i: Inward, o: Outward, up: seq<Msg>) {
    && i.torn == [] && o.torn == [] && s.inbox.refused == []
    && (s.resp.Some? ==> s.resp.value == Switching) && (forall m :: m in up && m.Res? ==> m.r == Switching)
    && CloseLast(up) && (Close in up ==> k.phase == Ended)
    && (s.phase != Idle && !s.inbox.closed ==> s.inbox.listed)
    && (s.inbox.closed ==> up == [] && k.phase == Ended && s.inbox.hand.None?)
    && (s.inbox.done ==> s.inbox.closed)
    && (s.drain == Stopped ==> s.inbox.closed && s.inbox.queue == [])
    && (Leaves(s.phase) ==> s.reader == Stopped && s.drain == Stopped)
  }

  /** The relay is listed by its own goroutine. */
  predicate Serving(p: ClientPhase) { p == Reading || p == Exiting || p == ExitDone }

  /** The server's close is its last frame; `early` says it was handled before registration. */
  ghost predicate Closed(s: Server, k: Client, early: bool, down: seq<Msg>) {
    && CloseLast(down) && (early || Close in down ==> s.reader == Stopped) && (early ==> Close !in down)
    && (k.relay ==> Serving(k.phase))
    && (s.reader == Stopped && Close !in down && !early ==> k.everRelay && !k.relay)
    && (early && Serving(k.phase) ==> k.relay)
  }

  ghost predicate Good(c: Ws, early: bool, down: seq<Msg>, up: seq<Msg>) {
    Inv(c, down, up) && Calm(c.s, c.k, c.i, c.o, up) && Closed(c.s, c.k, early, down)
  }

  lemma {:induction false} InitGood()
    ensures Good(Init(), false, [], [])
  {
    InitInv();
    hide Inv;
  }

  predicate ClosesEarly(c: Ws, a: Act) { a.LClose? && !c.k.everRelay }

  ghost predicate StaysCalm(e: Option<Out<Ws>>, r: Recv, down: seq<Msg>, up: seq<Msg>) {
    e.Some? && Arrived(r, down, up) ==>
      Calm(e.value.core.s, e.value.core.k, e.value.core.i, e.value.core.o, After(up, r.FromUp?, e.value.up))
  }

  ghost predicate StaysClosed(e: Option<Out<Ws>>, r: Recv, early: bool, down: seq<Msg>, up: seq<Msg>) {
    e.Some? && Arrived(r, down, up) ==>
      Closed(e.value.core.s, e.value.core.k, early, After(down, r.FromDown?, e.value.down))
  }

  // ---- The way back -------------------------------------------------------

  lemma {:induction false} ServeCalm(c: Ws, a: Act, down: seq<Msg>, up: seq<Msg>)
    requires Order(c.s, c.k, down, up) && Calm(c.s, c.k, c.i, c.o, up) && !Faulty(a)
    ensures StaysCalm(ServeEffect(c, a), Takes(a), down, up)
  {
    hide Inbox.Valid, CloseLast;
  }

  lemma {:induction false} LoopCalm(c: Ws, a: Act, down: seq<Msg>, up: seq<Msg>)
    requires Order(c.s, c.k, down, up) && Calm(c.s, c.k, c.i, c.o, up) && !Faulty(a)
    ensures StaysCalm(LoopEffect(c, a), Takes(a), down, up)
  {
    hide Inbox.Valid;
  }

  lemma {:induction false} LocalCalm(c: Ws, a: Act, down: seq<Msg>, up: seq<Msg>)
    requires Order(c.s, c.k, down, up) && Calm(c.s, c.k, c.i, c.o, up) && !Faulty(a)
    ensures StaysCalm(LocalEffect(c, a), Takes(a), down, up)
  {
    hide Inbox.Valid;
  }

  // ---- The close ----------------------------------------------------------

  lemma {:induction false} ServeClosed(c: Ws, a: Act, early: bool, down: seq<Msg>, up: seq<Msg>)
    requires Inv(c, down, up) && Closed(c.s, c.k, early, down) && !Faulty(a)
    ensures StaysClosed(ServeEffect(c, a), Takes(a), early, down, up)
  {
    hide Inbox.Valid, InwardOk, OutwardOk, Flat;
  }

  lemma {:induction false} LoopClosed(c: Ws, a: Act, early: bool, down: seq<Msg>, up: seq<Msg>)
    requires Inv(c, down, up) && Closed(c.s, c.k, early, down) && !Faulty(a)
    ensures StaysClosed(LoopEffect(c, a), Takes(a), early || ClosesEarly(c, a), down, up)
  {
    hide Inbox.Valid, OutwardOk, Flat, Datas, Accounted;
  }

  lemma {:induction false} LocalClosed(c: Ws, a: Act, early: bool, down: seq<Msg>, up: seq<Msg>)
    requires Inv(c, down, up) && Closed(c.s, c.k, early, down) && !Faulty(a)
    ensures StaysClosed(LocalEffect(c, a), Takes(a), early, down, up)
  {
    hide Inbox.Valid, OutwardOk, Flat, Datas, Accounted;
  }

  /** Every step that is not faulty keeps both. */
  lemma {:induction false} StepGood(c: Ws, a: Act, early: bool, down: seq<Msg>, up: seq<Msg>)
    requires Good(c, early, down, up) && Effect(c, a).Some? && Arrived(Takes(a), down, up) && !Faulty(a)
    ensures var o := Effect(c, a).value;
            Good(o.core, early || ClosesEarly(c, a), After(down, Takes(a).FromDown?, o.down),
                 After(up, Takes(a).FromUp?, o.up))
  {
    hide Calm, Closed, InwardOk, OutwardOk, ServeEffect, LoopEffect, LocalEffect, Faulty;
    StepKeeps(c, a, down, up);
    if IsServeAct(a) {
      ServeCalm(c, a, down, up);
      ServeClosed(c, a, early, down, up);
    } else if IsLocalAct(a) {
      LocalCalm(c, a, down, up);
      LocalClosed(c, a, early, down, up);
    } else {
      LoopCalm(c, a, down, up);
      LoopClosed(c, a, early, down, up);
    }
  }

  // ---- What that promises -------------------------------------------------

  /** Once the drain has stopped, the viewer is short of exactly the bytes that came with the
      read that ended the local stream. */
  lemma {:induction false} ReturnedWhole(c: Ws, early: bool, down: seq<Msg>, up: seq<Msg>)
    requires Good(c, early, down, up) && c.s.drain == Stopped
    ensures c.o.read == c.o.written + c.o.unsent
  {
    assert Datas([]) == [];
    hide Inv, Flat, Datas, Closed;
    OutwardAccount(c, down, up);
    FlatNone(c.s.inbox.queue);
    FlatNone(c.s.inbox.refused);
    FlatNone(Datas(up));
  }

  /** Once the server's close has been handled, the relay is listed if and only if the close came
      before registration and the relay's own goroutine has not taken it off. */
  lemma {:induction false} ListedIff(c: Ws, early: bool, down: seq<Msg>, up: seq<Msg>)
    requires Good(c, early, down, up) && c.s.reader == Stopped && Close !in down
    ensures c.k.relay <==> early && Serving(c.k.phase)
  {
    hide Inv, Calm;
  }
}
