/**
 What no step of a connection or an exchange ever does: take a goroutine back to where it was,
 put a payload on the link that its receiver would not decode, fill a queue beyond its capacity,
 send a body the wrong way for its size, or replace a response that has come.
 */
module Bounds {
  import opened Basics
  import opened Link
  import T = TcpRelay
  import TR = TcpRuns
  import X = HttpExchange
  import XR = HttpRuns
  import W = WsRelay
  import WE = WsEnds
  import Wire = FrameCodec

  /** Every payload on the way is of at most `most` bytes. */
  ghost predicate Fit(link: seq<Msg>, most: nat) { forall m :: m in link && m.Data? ==> |m.b| <= most }

  /** A data frame with such a payload is decoded by its receiver. */
  lemma {:induction false} FitsAFrame(f: Wire.Frame, t: Bytes)
    requires |f.payload| <= 4 * 1024 * 1024 + 1
    ensures Wire.DecodeFrame(Wire.FrameBytes(f) + t) == Some(f)
  {
    Wire.FrameRoundTrip(f, t);
  }

  // ---- Relayed connections --------------------------------------------------

  function ServerRank(p: T.ServerPhase): nat {
    match p
    case Idle => 0 case Listed => 1 case Waiting => 2 case Released => 3 case Pumping => 4
    case Closing => 5 case Leaving => 6 case Unlisted => 7 case Gone => 8
  }

  function DrainRank(d: T.Drain): nat { match d case NotYet => 0 case Running => 1 case Stopped => 2 }

  function ClientRank(p: T.ClientPhase): nat {
    match p
    case Absent => 0 case Spawned => 1 case Registered => 2 case Reading => 3
    case Exiting => 4 case ExitDone => 5 case ExitOff => 6 case Ended => 7
  }

  /** Where a connection's goroutines can be, and the prefix that was peeked. */
  predicate TcpPlaced(c: T.Tcp) { (ServerRank(c.s.phase) <= 3 ==> c.s.drain == T.NotYet) && |c.i.prefix| <= 9215 }

  /** No goroutine goes back, and what is sent is the peeked prefix or one read of at most 32 KiB. */
  ghost predicate TcpForward(c: T.Tcp, o: Out<T.Tcp>) {
    && ServerRank(c.s.phase) <= ServerRank(o.core.s.phase) && DrainRank(c.s.drain) <= DrainRank(o.core.s.drain)
    && ClientRank(c.k.phase) <= ClientRank(o.core.k.phase) && Fit(o.down, 32 * 1024) && Fit(o.up, 32 * 1024)
  }

  lemma {:induction false} TcpRelay(c: T.Tcp, a: T.Act)
    requires TcpPlaced(c) && T.RelayEffect(c, a).Some?
    ensures TcpPlaced(T.RelayEffect(c, a).value.core) && TcpForward(c, T.RelayEffect(c, a).value)
  {
    hide Inbox.Valid, Flat;
  }

  lemma {:induction false} TcpLoop(c: T.Tcp, a: T.Act)
    requires TcpPlaced(c) && T.LoopEffect(c, a).Some?
    ensures TcpPlaced(T.LoopEffect(c, a).value.core) && TcpForward(c, T.LoopEffect(c, a).value)
  {
    hide Inbox.Valid, Flat;
  }

  lemma {:induction false} TcpDial(c: T.Tcp, a: T.Act)
    requires TcpPlaced(c) && T.DialEffect(c, a).Some?
    ensures TcpPlaced(T.DialEffect(c, a).value.core) && TcpForward(c, T.DialEffect(c, a).value)
  {
    hide Inbox.Valid, Flat;
  }

  lemma {:induction false} TcpStep(c: T.Tcp, a: T.Act)
    requires TcpPlaced(c) && T.Effect(c, a).Some?
    ensures TcpPlaced(T.Effect(c, a).value.core) && TcpForward(c, T.Effect(c, a).value)
  {
    hide T.RelayEffect, T.LoopEffect, T.DialEffect, TcpPlaced, TcpForward;
    if T.IsRelayAct(a) {
      TcpRelay(c, a);
    } else if T.IsDialAct(a) {
      TcpDial(c, a);
    } else {
      TcpLoop(c, a);
    }
  }

  lemma {:induction false} TcpRunPlaced(sts: seq<TR.St>, acts: seq<T.Act>, i: nat)
    requires TR.Run(sts, acts) && i < |sts| && |sts[0].c.i.prefix| <= 9215
    ensures TcpPlaced(sts[i].c)
  {
    hide T.Effect, T.Takes;
    if i > 0 {
      hide TcpPlaced;
      TcpRunPlaced(sts, acts, i - 1);
      assert TR.Step(sts[i - 1], acts[i - 1], sts[i - 1 + 1]);
      TcpStep(sts[i - 1].c, acts[i - 1]);
    }
  }

  /** In every run of a connection whose peeked prefix is no longer than a peek can make it. */
  lemma {:induction false} TcpRunsForward(sts: seq<TR.St>, acts: seq<T.Act>, i: nat)
    requires TR.Run(sts, acts) && i < |acts| && |sts[0].c.i.prefix| <= 9215
    ensures T.Effect(sts[i].c, acts[i]).Some? && TcpForward(sts[i].c, T.Effect(sts[i].c, acts[i]).value)
  {
    hide T.Effect, T.Takes, TcpPlaced, TcpForward;
    TcpRunPlaced(sts, acts, i);
    assert TR.Step(sts[i], acts[i], sts[i + 1]);
    TcpStep(sts[i].c, acts[i]);
  }

  // ---- Upgraded connections -------------------------------------------------

  function WsServerRank(p: W.ServerPhase): nat {
    match p
    case Idle => 0 case Listed => 1 case Waiting => 2 case Relaying => 3 case Leaving => 4 case Unlisted => 5
    case Gone => 6
  }

  function WsReaderRank(r: W.Reader): nat {
    match r case NotYet => 0 case Running => 1 case Closing => 2 case Stopped => 3
  }

  function WsClientRank(p: W.ClientPhase): nat {
    match p
    case Absent => 0 case Spawned => 1 case Switched => 2 case Reading => 3
    case Exiting => 4 case ExitDone => 5 case ExitOff => 6 case Ended => 7
  }

  /** A response is taken once, and one that is not decoded is not taken. */
  ghost predicate Responded(was: Option<Response>, undecoded: bool, now: Option<Response>) {
    was.Some? || undecoded ==> now == was
  }

  predicate WsPlaced(c: W.Ws) {
    WsServerRank(c.s.phase) <= 2 ==> c.s.reader == W.NotYet && c.s.drain == W.NotYet
  }

  /** No goroutine goes back, and what is sent is one read of at most 32 KiB. */
  ghost predicate WsForward(c: W.Ws, undecoded: bool, o: Out<W.Ws>) {
    && WsServerRank(c.s.phase) <= WsServerRank(o.core.s.phase)
    && WsReaderRank(c.s.reader) <= WsReaderRank(o.core.s.reader)
    && WsReaderRank(c.s.drain) <= WsReaderRank(o.core.s.drain)
    && WsClientRank(c.k.phase) <= WsClientRank(o.core.k.phase)
    && Fit(o.down, 32 * 1024) && Fit(o.up, 32 * 1024)
    && Responded(c.s.resp, undecoded, o.core.s.resp)
  }

  lemma {:induction false} WsServe(c: W.Ws, a: W.Act)
    requires WsPlaced(c) && W.ServeEffect(c, a).Some?
    ensures WsPlaced(W.ServeEffect(c, a).value.core) && WsForward(c, false, W.ServeEffect(c, a).value)
  {
    hide Inbox.Valid, Flat;
  }

  lemma {:induction false} WsLoop(c: W.Ws, a: W.Act)
    requires WsPlaced(c) && W.LoopEffect(c, a).Some?
    ensures WsPlaced(W.LoopEffect(c, a).value.core) && WsForward(c, a.FRes? && !a.decodes, W.LoopEffect(c, a).value)
  {
    hide Inbox.Valid, Flat;
  }

  lemma {:induction false} WsLocal(c: W.Ws, a: W.Act)
    requires WsPlaced(c) && W.LocalEffect(c, a).Some?
    ensures WsPlaced(W.LocalEffect(c, a).value.core) && WsForward(c, false, W.LocalEffect(c, a).value)
  {
    hide Inbox.Valid, Flat;
  }

  lemma {:induction false} WsStep(c: W.Ws, a: W.Act)
    requires WsPlaced(c) && W.Effect(c, a).Some?
    ensures WsPlaced(W.Effect(c, a).value.core) && WsForward(c, a.FRes? && !a.decodes, W.Effect(c, a).value)
  {
    hide W.ServeEffect, W.LoopEffect, W.LocalEffect, WsPlaced, WsForward;
    if W.IsServeAct(a) {
      WsServe(c, a);
    } else if W.IsLocalAct(a) {
      WsLocal(c, a);
    } else {
      WsLoop(c, a);
    }
  }

  lemma {:induction false} WsRunPlaced(cs: seq<W.Ws>, acts: seq<W.Act>, i: nat)
    requires WE.Run(cs, acts) && i < |cs|
    ensures WsPlaced(cs[i])
  {
    hide W.Effect;
    if i > 0 {
      hide WsPlaced;
      WsRunPlaced(cs, acts, i - 1);
      assert WE.Moves(cs[i - 1], acts[i - 1], cs[i - 1 + 1]);
      WsStep(cs[i - 1], acts[i - 1]);
    }
  }

  /** In every run of an upgraded connection. */
  lemma {:induction false} WsRunsForward(cs: seq<W.Ws>, acts: seq<W.Act>, i: nat)
    requires WE.Run(cs, acts) && i < |acts|
    ensures W.Effect(cs[i], acts[i]).Some?
    ensures WsForward(cs[i], acts[i].FRes? && !acts[i].decodes, W.Effect(cs[i], acts[i]).value)
  {
    hide W.Effect, WsPlaced, WsForward;
    WsRunPlaced(cs, acts, i);
    assert WE.Moves(cs[i], acts[i], cs[i + 1]);
    WsStep(cs[i], acts[i]);
  }

  // ---- HTTP exchanges -------------------------------------------------------

  function HttpServerRank(p: X.ServerPhase): nat {
    match p
    case Idle => 0 case Listed => 1 case Await => 2 case Relaying => 3 case Last => 4 case Leaving => 5
    case Unlisted => 6 case Gone => 7
  }

  function PumpRank(p: X.Pump): nat {
    match p case NoPump => 0 case PumpHead => 1 case PumpLoop => 2 case PumpClose => 3 case PumpEnd => 4
  }

  function HttpClientRank(p: X.ClientPhase): nat {
    match p
    case Absent => 0 case Spawned => 1 case Doing => 2 case Slot => 3 case Header => 4 case First => 5
    case Pumping => 6 case Stop => 7 case Uncancel => 8 case Leave => 9 case Ended => 10
  }

  predicate Big(n: nat) { n > 4 * 1024 * 1024 }

  /** A body of up to 4 MiB is sent inline, a longer one is streamed; the upload's queue holds at most
      256 chunks; a head that was buffered is one byte longer than the limit at most. */
  ghost predicate Sized(c: X.Http) {
    && (HttpServerRank(c.s.phase) <= 1 ==> c.s.pump == X.NoPump)
    && |c.u.queue| <= 256 && |c.h.head| <= 4 * 1024 * 1024 + 1
    && (HttpClientRank(c.k.phase) <= 4 ==> c.d.res.None?)
    && (3 <= HttpClientRank(c.k.phase) <= 5 ==> |c.d.body| == 4 * 1024 * 1024 + 1)
    && (3 <= HttpClientRank(c.k.phase) <= 8 ==> Big(|c.d.body|))
    && (c.d.res == Some(Streamed) ==> Big(|c.d.body|))
    && (c.d.res.Some? && c.d.res.value.Inline? && c.d.res.value.genuine ==>
          HttpClientRank(c.k.phase) >= 9 && c.d.res.value.body == c.d.body && !Big(|c.d.body|))
  }

  ghost predicate HttpStays(c: X.Http, undecoded: bool, o: Out<X.Http>) {
    && HttpServerRank(c.s.phase) <= HttpServerRank(o.core.s.phase)
    && HttpClientRank(c.k.phase) <= HttpClientRank(o.core.k.phase) && PumpRank(c.s.pump) <= PumpRank(o.core.s.pump)
    && Fit(o.down, 4 * 1024 * 1024 + 1) && Fit(o.up, 4 * 1024 * 1024 + 1)
    && Responded(c.s.resp, undecoded, o.core.s.resp)
  }

  lemma {:induction false} ServeSized(c: X.Http, a: X.Act)
    requires Sized(c) && X.ServeEffect(c, a).Some?
    ensures Sized(X.ServeEffect(c, a).value.core)
  {
    hide Inbox.Valid, Flat;
  }

  lemma {:induction false} ServeStays(c: X.Http, a: X.Act)
    requires Sized(c) && X.ServeEffect(c, a).Some?
    ensures HttpStays(c, false, X.ServeEffect(c, a).value)
  {
    hide Inbox.Valid, Flat;
  }

  lemma {:induction false} LoopSized(c: X.Http, a: X.Act)
    requires Sized(c) && X.LoopEffect(c, a).Some?
    ensures Sized(X.LoopEffect(c, a).value.core)
    ensures HttpStays(c, a.FRes? && !a.decodes, X.LoopEffect(c, a).value)
  {
    hide Inbox.Valid, Flat;
  }

  lemma {:induction false} ClientSized(c: X.Http, a: X.Act)
    requires Sized(c) && X.ClientEffect(c, a).Some?
    ensures Sized(X.ClientEffect(c, a).value.core) && HttpStays(c, false, X.ClientEffect(c, a).value)
  {
    hide Inbox.Valid, Flat;
  }

  lemma {:induction false} ReplySized(c: X.Http, a: X.Act)
    requires Sized(c) && X.ReplyEffect(c, a).Some?
    ensures Sized(X.ReplyEffect(c, a).value.core)
  {
    hide Inbox.Valid, Flat;
  }

  lemma {:induction false} ReplyStays(c: X.Http, a: X.Act)
    requires Sized(c) && X.ReplyEffect(c, a).Some?
    ensures HttpStays(c, false, X.ReplyEffect(c, a).value)
  {
    hide Inbox.Valid, Flat;
  }

  lemma {:induction false} HttpStep(c: X.Http, a: X.Act)
    requires Sized(c) && X.Effect(c, a).Some?
    ensures Sized(X.Effect(c, a).value.core) && HttpStays(c, a.FRes? && !a.decodes, X.Effect(c, a).value)
  {
    hide X.ServeEffect, X.LoopEffect, X.ClientEffect, X.ReplyEffect, Sized, HttpStays;
    if X.IsServeAct(a) {
      ServeSized(c, a);
      ServeStays(c, a);
    } else if X.IsClientAct(a) {
      ClientSized(c, a);
    } else if X.IsReplyAct(a) {
      ReplySized(c, a);
      ReplyStays(c, a);
    } else {
      LoopSized(c, a);
    }
  }

  lemma {:induction false} StartSized(c: X.Http)
    requires c == X.Init(c.h.streamed, c.h.head) && |c.h.head| <= 4 * 1024 * 1024 + 1
    ensures Sized(c)
  {
  }

  /** In every run of an exchange: the sizes, and what each step keeps. */
  lemma {:induction false} HttpRunsForward(sts: seq<XR.St>, acts: seq<X.Act>)
    requires XR.Run(sts, acts) && |sts[0].c.h.head| <= 4 * 1024 * 1024 + 1
    ensures Sized(sts[|acts|].c)
    ensures acts != [] ==>
              && var i := |acts| - 1;
                 && X.Effect(sts[i].c, acts[i]).Some?
                 && HttpStays(sts[i].c, acts[i].FRes? && !acts[i].decodes, X.Effect(sts[i].c, acts[i]).value)
  {
    hide X.Effect, X.Takes, Sized, HttpStays;
    if acts == [] {
      StartSized(sts[0].c);
    } else {
      var i := |acts| - 1;
      assert XR.Step(sts[i], acts[i], sts[i + 1]);
      assert XR.Run(sts[..i + 1], acts[..i]) by {
        hide XR.Step;
        assert forall j :: 0 <= j < i ==> acts[..i][j] == acts[j] && sts[..i + 1][j] == sts[j];
      }
      HttpRunsForward(sts[..i + 1], acts[..i]);
      HttpStep(sts[i].c, acts[i]);
    }
  }
}
