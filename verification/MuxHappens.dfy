/**
 The multiplexer lets everything through: any runs of single connections and exchanges, one after
 the other under fresh IDs, are one run of the multiplexer. So any traffic at all can be served
 whole, whatever its kinds and lengths, and leaves nothing behind.
 */
module MuxHappens {
  import opened Basics
  import opened Link
  import opened Tables
  import opened Mux
  import MT = MuxTables
  import R = TcpRelay
  import X = HttpExchange
  import W = WsRelay
  import TR = TcpRuns
  import TH = TcpHappens
  import HR = HttpRuns
  import HH = HttpHappens
  import WR = WsRuns
  import WH = WsHappens

  ghost predicate Reached(g: State) { exists gs, ts :: Run(gs, ts) && gs[|ts|] == g }

  lemma {:induction false} Extends(g: State, t: Step, n: State)
    requires Reached(g) && Next(g, t, n)
    ensures Reached(n)
  {
    hide Next;
    var gs, ts :| Run(gs, ts) && gs[|ts|] == g;
    var gs', ts' := gs + [n], ts + [t];
    forall i | 0 <= i < |ts'| ensures Next(gs'[i], ts'[i], gs'[i + 1]) {
      if i < |ts| {
        assert gs'[i] == gs[i] && gs'[i + 1] == gs[i + 1] && ts'[i] == ts[i];
      }
    }
    assert Run(gs', ts') && gs'[|ts'|] == n;
  }

  // ---- One stream alone -----------------------------------------------------

  /** Only this stream moves: the links hold its frames, and no other stream keeps a loop busy. */
  ghost predicate Alone(g: State, others: map<Id, Stream>, id: Id, s: Stream, down: seq<Msg>, up: seq<Msg>) {
    && Reached(g) && g.streams == others[id := s] && g.down == Tagged(id, down) && g.up == Tagged(id, up)
    && id !in others && forall j :: j in others ==> ClientHand(others[j]).None? && ServerHand(others[j]).None?
  }

  /** A step that takes a frame finds its own loop free. */
  ghost predicate Taking(s: Stream, a: Act) {
    && (Takes(a).FromDown? ==> ClientHand(s).None?) && (Takes(a).FromUp? ==> ServerHand(s).None?)
  }

  lemma {:induction false} TaggedAfter(id: Id, link: seq<Msg>, taken: bool, more: seq<Msg>)
    requires taken ==> link != []
    ensures taken ==> Tagged(id, link) != [] && Tagged(id, link)[0] == Frame(id, link[0])
    ensures Advance(Tagged(id, link), taken, Tagged(id, more)) == Tagged(id, After(link, taken, more))
  {
  }

  lemma {:induction false} Steps(g: State, others: map<Id, Stream>, id: Id, s: Stream, a: Act, down: seq<Msg>,
                                 up: seq<Msg>) returns (n: State)
    requires Alone(g, others, id, s, down, up) && Effect(s, a).Some? && Arrived(Takes(a), down, up) && Taking(s, a)
    ensures var o := Effect(s, a).value;
            Alone(n, others, id, o.core, After(down, Takes(a).FromDown?, o.down), After(up, Takes(a).FromUp?, o.up))
  {
    hide Effect, Takes, ClientHand, ServerHand, Spawned, ChangeBy, Reached, Tagged;
    var o := Effect(s, a).value;
    TaggedAfter(id, down, Takes(a).FromDown?, o.down);
    TaggedAfter(id, up, Takes(a).FromUp?, o.up);
    n := State(g.streams[id := o.core], Advance(g.down, Takes(a).FromDown?, Tagged(id, o.down)),
               Advance(g.up, Takes(a).FromUp?, Tagged(id, o.up)), g.log + Tagged(id, o.down),
               g.jobs + Spawned(id, Takes(a)), g.tables.Apply(id, ChangeBy(g.streams[id], a)));
    assert Ready(g, id, Takes(a));
    assert Moves(g, id, a, n);
    Extends(g, Act(id, a), n);
  }

  lemma {:induction false} Opens(g: State, id: Id, s: Stream) returns (n: State)
    requires Reached(g) && id !in g.streams && Fresh(s) && g.down == [] && g.up == []
    requires forall j :: j in g.streams ==> ClientHand(g.streams[j]).None? && ServerHand(g.streams[j]).None?
    ensures Alone(n, g.streams, id, s, [], [])
  {
    hide Reached, Fresh, ClientHand, ServerHand;
    n := g.(streams := g.streams[id := s]);
    Extends(g, Open(id, s), n);
  }

  // ---- Runs of one connection or exchange -------------------------------------

  lemma {:induction false} TcpTaking(c: R.Tcp, a: R.Act)
    requires R.Effect(c, a).Some?
    ensures Taking(Relay(c), OnRelay(a))
  {
  }

  lemma {:induction false} HttpTaking(c: X.Http, a: X.Act)
    requires X.Effect(c, a).Some?
    ensures Taking(Exchange(c), OnExchange(a))
  {
  }

  lemma {:induction false} WsTaking(c: W.Ws, a: W.Act)
    requires W.Effect(c, a).Some?
    ensures Taking(Upgrade(c), OnUpgrade(a))
  {
  }

  /** What runs alone, runs here. */
  lemma {:induction false} TcpRunsHere(g: State, id: Id, sts: seq<TR.St>, acts: seq<R.Act>, i: nat) returns (n: State)
    requires Idle(g) && id !in g.streams && TR.Run(sts, acts) && i < |sts|
    ensures Alone(n, g.streams, id, Relay(sts[i].c), sts[i].down, sts[i].up)
  {
    hide R.Effect, R.Takes, Reached, ClientHand, ServerHand, Alone, Taking;
    if i == 0 {
      n := Opens(g, id, Relay(sts[0].c));
    } else {
      n := TcpRunsHere(g, id, sts, acts, i - 1);
      var st, a := sts[i - 1], acts[i - 1];
      assert TR.Step(st, a, sts[i - 1 + 1]);
      TcpTaking(st.c, a);
      n := Steps(n, g.streams, id, Relay(st.c), OnRelay(a), st.down, st.up);
    }
  }

  lemma {:induction false} HttpRunsHere(g: State, id: Id, sts: seq<HR.St>, acts: seq<X.Act>, i: nat)
    returns (n: State)
    requires Idle(g) && id !in g.streams && HR.Run(sts, acts) && i < |sts|
    ensures Alone(n, g.streams, id, Exchange(sts[i].c), sts[i].down, sts[i].up)
  {
    hide X.Effect, X.Takes, Reached, ClientHand, ServerHand, Alone, Taking;
    if i == 0 {
      n := Opens(g, id, Exchange(sts[0].c));
    } else {
      n := HttpRunsHere(g, id, sts, acts, i - 1);
      var st, a := sts[i - 1], acts[i - 1];
      assert HR.Step(st, a, sts[i - 1 + 1]);
      HttpTaking(st.c, a);
      n := Steps(n, g.streams, id, Exchange(st.c), OnExchange(a), st.down, st.up);
    }
  }

  lemma {:induction false} WsRunsHere(g: State, id: Id, sts: seq<WR.St>, acts: seq<W.Act>, i: nat) returns (n: State)
    requires Idle(g) && id !in g.streams && WR.Run(sts, acts) && i < |sts|
    ensures Alone(n, g.streams, id, Upgrade(sts[i].c), sts[i].down, sts[i].up)
  {
    hide W.Effect, W.Takes, Reached, ClientHand, ServerHand, Alone, Taking;
    if i == 0 {
      n := Opens(g, id, Upgrade(sts[0].c));
    } else {
      n := WsRunsHere(g, id, sts, acts, i - 1);
      var st, a := sts[i - 1], acts[i - 1];
      assert WR.Step(st, a, sts[i - 1 + 1]);
      WsTaking(st.c, a);
      n := Steps(n, g.streams, id, Upgrade(st.c), OnUpgrade(a), st.down, st.up);
    }
  }

  /** Nothing is on the links and no loop is busy. */
  ghost predicate Idle(g: State) {
    && Reached(g) && g.down == [] && g.up == []
    && forall j :: j in g.streams ==> ClientHand(g.streams[j]).None? && ServerHand(g.streams[j]).None?
  }

  // ---- Any traffic ------------------------------------------------------------

  /** What is to be carried: a connection with the bytes read on either side, an exchange with its
      upload and its response, an upgraded connection with the bytes of either side. */
  datatype Traffic =
    | Conn(prefix: Bytes, b: Bytes, x: Bytes)
    | Plain(streamed: bool, head: Bytes, rest: Bytes, body: Bytes)
    | Socket(b: Bytes, x: Bytes)

  predicate Possible(t: Traffic) { t.Plain? && !t.streamed ==> t.head + t.rest == [] }

  /** It was carried whole, and neither side has anything left of it. */
  ghost predicate Served(s: Stream, t: Traffic) {
    match (s, t)
    case (Relay(c), Conn(prefix, b, x)) =>
      && c.s.phase == R.Gone && c.k.phase == R.Ended && !c.k.relay
      && c.i.written == prefix + b == c.i.prefix + c.i.read && c.o.written == x == c.o.read
    case (Exchange(c), Plain(streamed, head, rest, body)) =>
      && c.s.phase == X.Gone && c.k.phase == X.Ended && !c.k.body && !c.k.cancel
      && c.u.got == head + rest == c.h.head + c.h.rest && c.d.viewer == body == c.d.body
    case (Upgrade(c), Socket(b, x)) =>
      && c.s.phase == W.Gone && c.k.phase == W.Ended && !c.k.relay
      && c.i.written == b == c.i.read && c.o.written == x == c.o.read
    case _ => false
  }

  lemma {:induction false} ServesConn(g: State, id: Id, prefix: Bytes, b: Bytes, x: Bytes) returns (n: State)
    requires Idle(g) && id !in g.streams
    ensures Idle(n) && n.streams.Keys == g.streams.Keys + {id} && Served(n.streams[id], Conn(prefix, b, x))
    ensures forall j :: j in g.streams ==> n.streams[j] == g.streams[j]
  {
    hide Reached, TR.Step, TR.Smooth, TR.SmoothBack;
    var sts, acts := TH.DeliveryHappens(prefix, b, x);
    n := TcpRunsHere(g, id, sts, acts, |acts|);
  }

  lemma {:induction false} ServesPlain(g: State, id: Id, streamed: bool, head: Bytes, rest: Bytes, body: Bytes)
    returns (n: State)
    requires Idle(g) && id !in g.streams && (!streamed ==> head + rest == [])
    ensures Idle(n) && n.streams.Keys == g.streams.Keys + {id}
    ensures Served(n.streams[id], Plain(streamed, head, rest, body))
    ensures forall j :: j in g.streams ==> n.streams[j] == g.streams[j]
  {
    hide Reached, HR.Step, X.Init;
    var c := HH.ExchangeHappens(streamed, head, rest, body);
    var sts, acts :| HR.Run(sts, acts) && sts[|acts|] == HR.St(c, [], []) && HR.AllBut(acts, {});
    n := HttpRunsHere(g, id, sts, acts, |acts|);
  }

  lemma {:induction false} ServesSocket(g: State, id: Id, b: Bytes, x: Bytes) returns (n: State)
    requires Idle(g) && id !in g.streams
    ensures Idle(n) && n.streams.Keys == g.streams.Keys + {id} && Served(n.streams[id], Socket(b, x))
    ensures forall j :: j in g.streams ==> n.streams[j] == g.streams[j]
  {
    hide Reached, WR.Step, W.Init;
    var c := WH.BytesArrive(b, x);
    var sts, acts :| WR.Run(sts, acts) && sts[|acts|] == WR.St(c, [], []);
    n := WsRunsHere(g, id, sts, acts, |acts|);
  }

  lemma {:induction false} ServesOne(g: State, id: Id, t: Traffic) returns (n: State)
    requires Idle(g) && id !in g.streams && Possible(t)
    ensures Idle(n) && n.streams.Keys == g.streams.Keys + {id} && Served(n.streams[id], t)
    ensures forall j :: j in g.streams ==> n.streams[j] == g.streams[j]
  {
    hide Idle, Served;
    match t
    case Conn(prefix, b, x) => n := ServesConn(g, id, prefix, b, x);
    case Plain(streamed, head, rest, body) => n := ServesPlain(g, id, streamed, head, rest, body);
    case Socket(b, x) => n := ServesSocket(g, id, b, x);
  }

  lemma {:induction false} StartsIdle()
    ensures Idle(START) && START.streams == map[]
  {
    var gs, ts: seq<Step> := [START], [];
    assert Run(gs, ts) && gs[|ts|] == START;
  }

  lemma {:induction false} ServesAll(ts: seq<Traffic>) returns (g: State)
    requires forall i :: 0 <= i < |ts| ==> Possible(ts[i])
    ensures Idle(g) && forall i :: 0 <= i < |ts| ==> i in g.streams && Served(g.streams[i], ts[i])
    ensures forall id :: id in g.streams ==> id < |ts|
  {
    hide Served, Idle, Possible;
    if ts == [] {
      StartsIdle();
      g := START;
    } else {
      var k := |ts| - 1;
      g := ServesAll(ts[..k]);
      var n := ServesOne(g, k, ts[k]);
      g := n;
    }
  }

  lemma {:induction false} NothingListed(s: Stream, t: Traffic)
    requires Served(s, t)
    ensures !MT.RelayFlag(s) && !MT.BodyFlag(s) && !MT.CancelFlag(s)
  {
  }

  lemma {:induction false} NoEntry(g: State, id: Id)
    requires Reached(g)
    requires id in g.streams ==>
               !MT.RelayFlag(g.streams[id]) && !MT.BodyFlag(g.streams[id]) && !MT.CancelFlag(g.streams[id])
    ensures id !in g.tables.relays && id !in g.tables.bodies && id !in g.tables.cancels
  {
    hide MT.RelayFlag, MT.BodyFlag, MT.CancelFlag, Next;
    var gs, ts :| Run(gs, ts) && gs[|ts|] == g;
    MT.TablesAgree(gs, ts, |ts|, id);
  }

  /** Any traffic, of any kinds and lengths: one run of the multiplexer serves all of it, whole,
      and ends with idle loops, empty links and empty tables. */
  lemma {:induction false} AnyTraffic(ts: seq<Traffic>) returns (g: State)
    requires forall i :: 0 <= i < |ts| ==> Possible(ts[i])
    ensures Idle(g) && forall i :: 0 <= i < |ts| ==> i in g.streams && Served(g.streams[i], ts[i])
    ensures g.tables == NO_TABLES
  {
    hide Served, Reached, Possible;
    g := ServesAll(ts);
    forall id: Id
      ensures id !in g.tables.relays && id !in g.tables.bodies && id !in g.tables.cancels
    {
      if id in g.streams {
        NothingListed(g.streams[id], ts[id]);
      }
      NoEntry(g, id);
    }
  }
}
