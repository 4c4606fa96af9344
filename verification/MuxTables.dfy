/**
 What the client can tell an ID by. In every run no ID carries both kinds of opening frame, so
 at most one handler is ever spawned for it, and the relay table never shares an ID with the
 other two; the tables hold exactly what the streams say. And no frame blocks a link: a free
 loop can take the head, a busy loop can finish.
 */
module MuxTables {
  import opened Basics
  import opened Link
  import opened Tables
  import opened Mux
  import R = TcpRelay
  import RC = TcpComplete
  import X = HttpExchange
  import XC = HttpComplete
  import W = WsRelay

  // ---- Frames of a kind -------------------------------------------------

  predicate DownKind(s: Stream, m: Msg) {
    match s
    case Relay(_) => R.Kind(m)
    case Exchange(_) => X.DownKind(m)
    case Upgrade(_) => W.DownKind(m)
  }

  predicate UpKind(s: Stream, m: Msg) {
    match s
    case Relay(_) => R.Kind(m)
    case Exchange(_) => X.UpKind(m)
    case Upgrade(_) => W.UpKind(m)
  }

  predicate RelayFlag(s: Stream) {
    match s
    case Relay(t) => t.k.relay
    case Exchange(_) => false
    case Upgrade(w) => w.k.relay
  }

  predicate BodyFlag(s: Stream) { s.Exchange? && s.x.k.body }

  predicate CancelFlag(s: Stream) { s.Exchange? && s.x.k.cancel }

  /** The client has begun to handle the stream. */
  predicate Begun(s: Stream) {
    match s
    case Relay(t) => t.k.phase != R.Absent
    case Exchange(x) => x.k.phase != X.Absent
    case Upgrade(w) => w.k.phase != W.Absent
  }

  function HandlerOf(s: Stream): Handler {
    match s
    case Relay(_) => TcpOpen
    case Exchange(_) => PlainReq
    case Upgrade(_) => UpgradeReq
  }

  function Opening(h: Handler): Msg {
    match h
    case TcpOpen => TCPOpen
    case PlainReq => Req(false)
    case UpgradeReq => Req(true)
  }

  predicate IsOpening(m: Msg) { m == TCPOpen || m.Req? }

  // ---- Invariants -------------------------------------------------------

  /** Every frame is of the kind of its stream. */
  ghost predicate KindsOk(g: State) {
    && (forall f :: f in g.log ==> f.id in g.streams && DownKind(g.streams[f.id], f.m))
    && (forall f :: f in g.down ==> f in g.log)
    && (forall f :: f in g.up ==> f.id in g.streams && UpKind(g.streams[f.id], f.m))
  }

  /** A handler was spawned by its frame, and a stream that has begun has its handler. */
  ghost predicate JobsOk(g: State) {
    && (forall j :: j in g.jobs ==> Frame(j.id, Opening(j.handler)) in g.log)
    && (forall id :: id in g.streams && Begun(g.streams[id]) ==> Job(id, HandlerOf(g.streams[id])) in g.jobs)
  }

  ghost predicate AgreesAt(t: Tables, id: Id, s: Stream) {
    && (id in t.relays <==> RelayFlag(s))
    && (id in t.bodies <==> BodyFlag(s))
    && (id in t.cancels <==> CancelFlag(s))
  }

  /** The tables hold what the streams say. */
  ghost predicate Agrees(g: State) {
    && (forall id :: id in g.streams ==> AgreesAt(g.tables, id, g.streams[id]))
    && (forall id :: id in g.tables.relays + g.tables.bodies + g.tables.cancels ==> id in g.streams)
  }

  ghost predicate TablesInv(g: State) { KindsOk(g) && JobsOk(g) && Agrees(g) }

  /** An entry is listed only after its handler has begun, a body stream by the handler. */
  predicate Sound(s: Stream) {
    && (RelayFlag(s) || BodyFlag(s) || CancelFlag(s) ==> Begun(s))
    && (s.Exchange? && s.x.k.phase == X.Spawned ==> !s.x.k.body)
  }

  lemma {:induction false} GoodIsSound(s: Stream, down: seq<Msg>, up: seq<Msg>)
    requires StreamGood(s, down, up)
    ensures Sound(s)
  {
    hide Flat, Datas, RC.Whole, XC.Whole;
  }

  // ---- One stream's step ------------------------------------------------

  /** What a step of a stream sends and does, told without its machine. */
  ghost predicate Told(s: Stream, a: Act, o: Out<Stream>) {
    && (forall m :: m in o.down ==> DownKind(s, m)) && (forall m :: m in o.up ==> UpKind(s, m))
    && HandlerOf(o.core) == HandlerOf(s)
    && (!Begun(s) && Begun(o.core) ==> Takes(a) == FromDown(Opening(HandlerOf(s))))
    && (Begun(s) ==> Begun(o.core))
    && (Takes(a).FromDown? && IsOpening(Takes(a).m) && DownKind(s, Takes(a).m) ==> Takes(a).m == Opening(HandlerOf(s)))
  }

  lemma {:induction false} StreamTold(s: Stream, a: Act)
    requires Effect(s, a).Some?
    ensures Told(s, a, Effect(s, a).value)
  {
    hide R.Effect, X.Effect, W.Effect, R.Takes, X.Takes, W.Takes;
    match (s, a)
    case (Relay(t), OnRelay(r)) => R.StepTold(t, r);
    case (Exchange(x), OnExchange(e)) => X.StepTold(x, e);
    case (Upgrade(w), OnUpgrade(u)) => W.StepTold(w, u);
    case _ =>
  }

  lemma {:induction false} RelayAgrees(t: Tables, id: Id, c: R.Tcp, a: R.Act)
    requires AgreesAt(t, id, Relay(c)) && R.Effect(c, a).Some?
    ensures AgreesAt(t.Apply(id, ChangeBy(Relay(c), OnRelay(a))), id, Relay(R.Effect(c, a).value.core))
  {
    R.StepTold(c, a);
    hide R.Effect;
  }

  lemma {:induction false} ExchangeAgrees(t: Tables, id: Id, c: X.Http, a: X.Act)
    requires AgreesAt(t, id, Exchange(c)) && X.Effect(c, a).Some? && (c.k.phase == X.Spawned ==> !c.k.body)
    ensures AgreesAt(t.Apply(id, ChangeBy(Exchange(c), OnExchange(a))), id, Exchange(X.Effect(c, a).value.core))
  {
    X.StepTold(c, a);
    hide X.Effect;
  }

  lemma {:induction false} UpgradeAgrees(t: Tables, id: Id, c: W.Ws, a: W.Act)
    requires AgreesAt(t, id, Upgrade(c)) && W.Effect(c, a).Some?
    ensures AgreesAt(t.Apply(id, ChangeBy(Upgrade(c), OnUpgrade(a))), id, Upgrade(W.Effect(c, a).value.core))
  {
    W.StepTold(c, a);
    hide W.Effect;
  }

  lemma {:induction false} StreamAgrees(t: Tables, s: Stream, id: Id, a: Act)
    requires AgreesAt(t, id, s) && Effect(s, a).Some? && Sound(s)
    ensures AgreesAt(t.Apply(id, ChangeBy(s, a)), id, Effect(s, a).value.core)
  {
    hide AgreesAt, ChangeBy, R.Effect, X.Effect, W.Effect;
    match (s, a)
    case (Relay(c), OnRelay(r)) => RelayAgrees(t, id, c, r);
    case (Exchange(c), OnExchange(e)) => ExchangeAgrees(t, id, c, e);
    case (Upgrade(c), OnUpgrade(u)) => UpgradeAgrees(t, id, c, u);
    case _ =>
  }

  lemma {:induction false} MoveAgrees(g: State, id: Id, a: Act, g': State)
    requires Agrees(g) && Moves(g, id, a, g') && Sound(g.streams[id])
    ensures Agrees(g')
  {
    hide AgreesAt, ChangeBy, Effect, Takes, Ready, Spawned, Sound;
    var s := g.streams[id];
    StreamAgrees(g.tables, s, id, a);
    forall j | j in g'.streams ensures AgreesAt(g'.tables, j, g'.streams[j]) {
      if j != id {
        OthersUntouched(g.tables, id, ChangeBy(s, a), j);
        SameAt(g.tables, g'.tables, j, g.streams[j]);
      }
    }
    forall j | j in g'.tables.relays + g'.tables.bodies + g'.tables.cancels ensures j in g'.streams {
      if j != id {
        OthersUntouched(g.tables, id, ChangeBy(s, a), j);
      }
    }
  }

  lemma {:induction false} SameAt(t: Tables, n: Tables, j: Id, s: Stream)
    requires j in n.relays <==> j in t.relays
    requires j in n.bodies <==> j in t.bodies
    requires j in n.cancels <==> j in t.cancels
    requires AgreesAt(t, j, s)
    ensures AgreesAt(n, j, s)
  {
  }

  lemma {:induction false} KindKept(s: Stream, n: Stream, m: Msg)
    requires HandlerOf(n) == HandlerOf(s)
    ensures DownKind(n, m) == DownKind(s, m) && UpKind(n, m) == UpKind(s, m)
  {
  }

  lemma {:induction false} MoveKinds(g: State, id: Id, a: Act, g': State)
    requires KindsOk(g) && Moves(g, id, a, g')
    ensures KindsOk(g')
  {
    var s := g.streams[id];
    StreamTold(s, a);
    var o := Effect(s, a).value;
    hide Effect, Takes, ChangeBy, Spawned, DownKind, UpKind;
    forall f | f in g'.log ensures f.id in g'.streams && DownKind(g'.streams[f.id], f.m) {
      KindKept(s, o.core, f.m);
      if f !in g.log {
        assert f in Tagged(id, o.down) && f.m in o.down;
      }
    }
    forall f | f in g'.down ensures f in g'.log {
      assert f in g.down || f in Tagged(id, o.down);
    }
    forall f | f in g'.up ensures f.id in g'.streams && UpKind(g'.streams[f.id], f.m) {
      KindKept(s, o.core, f.m);
      if f !in g.up {
        assert f in Tagged(id, o.up) && f.m in o.up;
      }
    }
  }

  lemma {:induction false} MoveJobs(g: State, id: Id, a: Act, g': State)
    requires KindsOk(g) && JobsOk(g) && Moves(g, id, a, g')
    ensures JobsOk(g')
  {
    var s := g.streams[id];
    StreamTold(s, a);
    var o := Effect(s, a).value;
    hide Effect, ChangeBy, DownKind, UpKind, Takes;
    forall j | j in g'.jobs ensures Frame(j.id, Opening(j.handler)) in g'.log {
      if j !in g.jobs {
        assert j in Spawned(id, Takes(a));
        assert Frame(id, Takes(a).m) in g.down;
      }
    }
    forall k | k in g'.streams && Begun(g'.streams[k]) ensures Job(k, HandlerOf(g'.streams[k])) in g'.jobs {
      if k == id && !Begun(s) {
        assert Job(id, HandlerOf(s)) in Spawned(id, Takes(a));
      }
    }
  }

  // ---- Every run --------------------------------------------------------

  lemma {:induction false} FreshQuiet(s: Stream)
    requires Fresh(s)
    ensures !Begun(s) && !RelayFlag(s) && !BodyFlag(s) && !CancelFlag(s)
  {
  }

  lemma {:induction false} StartTables(g: State, id: Id, s: Stream, g': State)
    requires TablesInv(g) && Starts(g, id, s, g')
    ensures TablesInv(g')
  {
    FreshQuiet(s);
    hide DownKind, UpKind, Fresh;
  }

  lemma {:induction false} NextTables(g: State, t: Step, g': State)
    requires TablesInv(g) && Next(g, t, g') && IdGood(g, t.id)
    ensures TablesInv(g')
  {
    hide KindsOk, JobsOk, Agrees, Starts, StreamGood, Effect, Takes, ChangeBy;
    if t.id in g.streams {
      GoodIsSound(g.streams[t.id], Of(g.down, t.id), Of(g.up, t.id));
    }
    hide IdGood, Moves, Sound;
    match t
    case Open(id, s) => StartTables(g, id, s, g');
    case Act(id, a) => MoveKinds(g, id, a, g'); MoveJobs(g, id, a, g'); MoveAgrees(g, id, a, g');
  }

  lemma {:induction false} RunTables(gs: seq<State>, ts: seq<Step>, i: nat)
    requires Run(gs, ts) && i < |gs|
    ensures TablesInv(gs[i])
  {
    hide Next;
    if i == 0 {
    } else {
      hide TablesInv;
      RunTables(gs, ts, i - 1);
      EveryIdGood(gs, ts, i - 1, ts[i - 1].id);
      hide IdGood;
      NextTables(gs[i - 1], ts[i - 1], gs[i]);
    }
  }

  /** No ID ever carries two kinds of opening frame. */
  lemma {:induction false} OneOpening(gs: seq<State>, ts: seq<Step>, i: nat, id: Id, m: Msg, n: Msg)
    requires Run(gs, ts) && i < |gs| && Frame(id, m) in gs[i].log && Frame(id, n) in gs[i].log && IsOpening(m)
    requires IsOpening(n)
    ensures m == n
  {
    hide Run;
    RunTables(gs, ts, i);
  }

  /** An entry is what the frame that opened its stream said: a relay's ID was opened by TCPOpen
      or by a request for an upgrade, and handled by that handler; a body stream's and a cancel
      signal's by a plain request. */
  lemma {:induction false} EntryFollowsFrame(gs: seq<State>, ts: seq<Step>, i: nat, id: Id)
    requires Run(gs, ts) && i < |gs|
    ensures var g := gs[i];
            && (id in g.tables.relays ==>
                  || (Job(id, TcpOpen) in g.jobs && Frame(id, TCPOpen) in g.log)
                  || (Job(id, UpgradeReq) in g.jobs && Frame(id, Req(true)) in g.log))
            && (id in g.tables.bodies + g.tables.cancels ==>
                  Job(id, PlainReq) in g.jobs && Frame(id, Req(false)) in g.log)
  {
    RunTables(gs, ts, i);
    EveryIdGood(gs, ts, i, id);
    var g := gs[i];
    hide Run, StreamGood, KindsOk;
    if id in g.streams {
      GoodIsSound(g.streams[id], Of(g.down, id), Of(g.up, id));
      assert AgreesAt(g.tables, id, g.streams[id]);
    }
  }

  /** In every run, the relay table shares no ID with the other two: an ID in both would have
      been opened twice. */
  lemma {:induction false} TablesDisjoint(gs: seq<State>, ts: seq<Step>, i: nat)
    requires Run(gs, ts) && i < |gs|
    ensures gs[i].tables.relays !! gs[i].tables.bodies && gs[i].tables.relays !! gs[i].tables.cancels
  {
    hide Run;
    var t := gs[i].tables;
    forall id | id in t.relays ensures id !in t.bodies && id !in t.cancels {
      EntryFollowsFrame(gs, ts, i, id);
      if id in t.bodies + t.cancels {
        if Frame(id, TCPOpen) in gs[i].log {
          OneOpening(gs, ts, i, id, TCPOpen, Req(false));
        } else {
          OneOpening(gs, ts, i, id, Req(true), Req(false));
        }
      }
    }
  }

  /** In every run at most one handler is spawned for an ID. */
  lemma {:induction false} OneHandler(gs: seq<State>, ts: seq<Step>, i: nat, id: Id, h: Handler, k: Handler)
    requires Run(gs, ts) && i < |gs| && Job(id, h) in gs[i].jobs && Job(id, k) in gs[i].jobs
    ensures h == k
  {
    hide Run;
    RunTables(gs, ts, i);
    OneOpening(gs, ts, i, id, Opening(h), Opening(k));
  }

  /** The tables the loop looks an ID up in hold exactly what the stream machines say. */
  lemma {:induction false} TablesAgree(gs: seq<State>, ts: seq<Step>, i: nat, id: Id)
    requires Run(gs, ts) && i < |gs|
    ensures var g := gs[i];
            && (id in g.tables.relays <==> id in g.streams && RelayFlag(g.streams[id]))
            && (id in g.tables.bodies <==> id in g.streams && BodyFlag(g.streams[id]))
            && (id in g.tables.cancels <==> id in g.streams && CancelFlag(g.streams[id]))
  {
    RunTables(gs, ts, i);
    hide Run;
    if id in gs[i].streams {
      assert AgreesAt(gs[i].tables, id, gs[i].streams[id]);
    }
  }

  /** A close frame acts on at most one entry, whatever its ID: of the three tables, and by the
      agreement above of all streams. */
  lemma {:induction false} CloseActsOnOne(gs: seq<State>, ts: seq<Step>, i: nat)
    requires Run(gs, ts) && i < |ts| && ts[i].Act? && Takes(ts[i].a) == FromDown(Close)
    ensures var t, n := gs[i].tables, gs[i + 1].tables;
            && n == t.Close(ts[i].id) && n.relays <= t.relays && n.bodies <= t.bodies && n.cancels <= t.cancels
            && Gone(t, n) <= 1
  {
    assert Next(gs[i], ts[i], gs[i + 1]);
    hide Takes, Effect, Run;
    CloseTakesOne(gs[i].tables, ts[i].id);
    hide Gone;
  }

  // ---- No frame blocks a link -------------------------------------------

  /** The step that takes a frame from the link to the client... */
  function DownAct(s: Stream, m: Msg): Act {
    match s
    case Relay(_) => OnRelay(R.DownAct(m))
    case Exchange(_) => OnExchange(X.DownAct(m))
    case Upgrade(_) => OnUpgrade(W.DownAct(m))
  }

  /** ... and to the server. */
  function UpAct(s: Stream, m: Msg): Act {
    match s
    case Relay(_) => OnRelay(R.UpAct(m))
    case Exchange(_) => OnExchange(X.UpAct(m))
    case Upgrade(_) => OnUpgrade(W.UpAct(m))
  }

  lemma {:induction false} StreamTakesDown(s: Stream, down: seq<Msg>, up: seq<Msg>)
    requires StreamGood(s, down, up) && down != [] && DownKind(s, down[0]) && ClientHand(s).None?
    ensures Takes(DownAct(s, down[0])) == FromDown(down[0]) && Effect(s, DownAct(s, down[0])).Some?
  {
    hide R.Inv, X.Inv, W.Inv, RC.Whole, XC.Whole, R.Effect, X.Effect, W.Effect, R.Takes, X.Takes, W.Takes;
    match s
    case Relay(t) => R.HeadTaken(t, down, up);
    case Exchange(x) => X.HeadTaken(x, down, up);
    case Upgrade(w) => W.HeadTaken(w, down, up);
  }

  lemma {:induction false} StreamTakesUp(s: Stream, m: Msg)
    requires UpKind(s, m) && ServerHand(s).None?
    ensures Takes(UpAct(s, m)) == FromUp(m) && Effect(s, UpAct(s, m)).Some?
  {
    hide R.Effect, X.Effect, W.Effect, R.Takes, X.Takes, W.Takes;
    match s
    case Relay(t) => R.UpTaken(t, m);
    case Exchange(x) => X.UpTaken(x, m);
    case Upgrade(w) => W.UpTaken(w, m);
  }

  /** In every run, a free loop can take the head of its link, whatever it is. */
  lemma {:induction false} HeadCanBeTaken(gs: seq<State>, ts: seq<Step>, i: nat)
    requires Run(gs, ts) && i < |gs|
    ensures var g := gs[i];
            g.down != [] && ClientFree(g) ==>
              exists a, g' :: Takes(a) == FromDown(g.down[0].m) && Moves(g, g.down[0].id, a, g')
    ensures var g := gs[i];
            g.up != [] && ServerFree(g) ==> exists a, g' :: Takes(a) == FromUp(g.up[0].m) && Moves(g, g.up[0].id, a, g')
  {
    RunTables(gs, ts, i);
    var g := gs[i];
    if g.down != [] && ClientFree(g) {
      var f := g.down[0];
      assert f in g.down && f in g.log;
      EveryIdGood(gs, ts, i, f.id);
      OfHead(g.down, f.id);
      hide StreamGood, DownKind;
      var s := g.streams[f.id];
      StreamTakesDown(s, Of(g.down, f.id), Of(g.up, f.id));
      MoveExists(g, f.id, DownAct(s, f.m));
    }
    if g.up != [] && ServerFree(g) {
      var f := g.up[0];
      assert f in g.up;
      var s := g.streams[f.id];
      StreamTakesUp(s, f.m);
      MoveExists(g, f.id, UpAct(s, f.m));
    }
  }

  lemma {:induction false} MoveExists(g: State, id: Id, a: Act)
    requires id in g.streams && Ready(g, id, Takes(a)) && Effect(g.streams[id], a).Some?
    ensures exists g' :: Moves(g, id, a, g')
  {
    hide Effect, Takes, ChangeBy, Spawned;
    var o := Effect(g.streams[id], a).value;
    var g' := State(g.streams[id := o.core], Advance(g.down, Takes(a).FromDown?, Tagged(id, o.down)),
                    Advance(g.up, Takes(a).FromUp?, Tagged(id, o.up)), g.log + Tagged(id, o.down),
                    g.jobs + Spawned(id, Takes(a)), g.tables.Apply(id, ChangeBy(g.streams[id], a)));
    assert Moves(g, id, a, g');
  }

  function ClientGivesUp(s: Stream): Act {
    match s
    case Relay(_) => OnRelay(R.KWrite(0, false))
    case Exchange(_) => OnExchange(X.LStall)
    case Upgrade(_) => OnUpgrade(W.LWrite(0, false))
  }

  function ServerGivesUp(s: Stream): Act {
    match s
    case Relay(_) => OnRelay(R.FStall(true))
    case Exchange(_) => OnExchange(X.FStall(true))
    case Upgrade(_) => OnUpgrade(W.FStall(true))
  }

  lemma {:induction false} StreamFreed(s: Stream)
    ensures ClientHand(s).Some? ==>
              var a := ClientGivesUp(s);
              Takes(a) == Nothing && Effect(s, a).Some? && ClientHand(Effect(s, a).value.core).None?
    ensures ServerHand(s).Some? ==>
              var a := ServerGivesUp(s);
              Takes(a) == Nothing && Effect(s, a).Some? && ServerHand(Effect(s, a).value.core).None?
  {
    hide R.Effect, X.Effect, W.Effect, R.Takes, X.Takes, W.Takes;
    match s
    case Relay(t) => R.HandFreed(t);
    case Exchange(x) => X.HandFreed(x);
    case Upgrade(w) => W.HandFreed(w);
  }

  /** A busy loop can finish: its write fails or its send times out at the latest. */
  lemma {:induction false} BusyCanFinish(g: State, id: Id)
    requires id in g.streams
    ensures ClientHand(g.streams[id]).Some? ==>
              exists a, g' :: Moves(g, id, a, g') && id in g'.streams && ClientHand(g'.streams[id]).None?
    ensures ServerHand(g.streams[id]).Some? ==>
              exists a, g' :: Moves(g, id, a, g') && id in g'.streams && ServerHand(g'.streams[id]).None?
  {
    var s := g.streams[id];
    StreamFreed(s);
    hide Effect, Takes, ClientHand, ServerHand, ClientGivesUp, ServerGivesUp, ChangeBy;
    if ClientHand(s).Some? {
      MoveExists(g, id, ClientGivesUp(s));
      var g' :| Moves(g, id, ClientGivesUp(s), g');
      assert id in g'.streams && ClientHand(g'.streams[id]).None?;
    }
    if ServerHand(s).Some? {
      MoveExists(g, id, ServerGivesUp(s));
      var g' :| Moves(g, id, ServerGivesUp(s), g');
      assert id in g'.streams && ServerHand(g'.streams[id]).None?;
    }
  }
}
