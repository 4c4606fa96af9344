/**
 The multiplexer: any number of relayed connections, HTTP exchanges and upgraded connections
 share one ordered link in each direction. Each side's frame loop takes the oldest frame,
 looks its request ID up and is busy until that frame is dealt with; every goroutine of every
 stream moves on its own. Request IDs are fresh.

 The server knows what a stream is for. The client learns it from the frame that opens the
 stream, and keeps its entries in three tables by ID; both are part of the state.
 */
module Mux {
  import opened Basics
  import opened Link
  import opened Tables
  import R = TcpRelay
  import RC = TcpComplete
  import RB = TcpReturn
  import X = HttpExchange
  import XC = HttpComplete
  import W = WsRelay

  datatype Frame = Frame(id: Id, m: Msg)

  datatype Stream = Relay(t: R.Tcp) | Exchange(x: X.Http) | Upgrade(w: W.Ws)

  datatype Act = OnRelay(r: R.Act) | OnExchange(e: X.Act) | OnUpgrade(u: W.Act)

  /** A goroutine the client has spawned, and by which of its handlers. */
  datatype Handler = TcpOpen | PlainReq | UpgradeReq
  datatype Job = Job(id: Id, handler: Handler)

  /** `log` holds every frame the server has ever put on the link. */
  datatype State = State(streams: map<Id, Stream>, down: seq<Frame>, up: seq<Frame>, log: seq<Frame>, jobs: set<Job>,
                         tables: Tables)

  const START := State(map[], [], [], [], {}, NO_TABLES)

  function Tagged(id: Id, ms: seq<Msg>): (r: seq<Frame>)
    ensures |r| == |ms| && forall j :: 0 <= j < |ms| ==> r[j] == Frame(id, ms[j])
  {
    seq(|ms|, j requires 0 <= j < |ms| => Frame(id, ms[j]))
  }

  /** The frames of one stream on a shared link. */
  function Of(link: seq<Frame>, id: Id): seq<Msg> {
    if link == [] then []
    else if link[0].id == id then [link[0].m] + Of(link[1..], id)
    else Of(link[1..], id)
  }

  // ---- Steps ------------------------------------------------------------

  predicate Fresh(s: Stream) {
    match s
    case Relay(t) => t == R.Init(t.i.prefix)
    case Exchange(x) => x == X.Init(x.h.streamed, x.h.head)
    case Upgrade(w) => w == W.Init()
  }

  function Takes(a: Act): Recv {
    match a
    case OnRelay(r) => R.Takes(r)
    case OnExchange(e) => X.Takes(e)
    case OnUpgrade(u) => W.Takes(u)
  }

  function Effect(s: Stream, a: Act): Option<Out<Stream>> {
    match (s, a)
    case (Relay(t), OnRelay(r)) =>
      (match R.Effect(t, r) case None => None case Some(o) => Some(Out(Relay(o.core), o.down, o.up)))
    case (Exchange(x), OnExchange(e)) =>
      (match X.Effect(x, e) case None => None case Some(o) => Some(Out(Exchange(o.core), o.down, o.up)))
    case (Upgrade(w), OnUpgrade(u)) =>
      (match W.Effect(w, u) case None => None case Some(o) => Some(Out(Upgrade(o.core), o.down, o.up)))
    case _ => None
  }

  /** The payload a frame loop is busy with. */
  function ServerHand(s: Stream): Option<Bytes> {
    match s
    case Relay(t) => t.s.inbox.hand
    case Exchange(x) => x.s.inbox.hand
    case Upgrade(w) => w.s.inbox.hand
  }

  function ClientHand(s: Stream): Option<Bytes> {
    match s
    case Relay(t) => t.k.hand
    case Exchange(x) => x.k.hand
    case Upgrade(w) => w.k.hand
  }

  ghost predicate ClientFree(g: State) { forall j :: j in g.streams ==> ClientHand(g.streams[j]).None? }

  ghost predicate ServerFree(g: State) { forall j :: j in g.streams ==> ServerHand(g.streams[j]).None? }

  /** The loop of the receiving side is free and its oldest frame is this one. */
  ghost predicate Ready(g: State, id: Id, r: Recv) {
    match r
    case Nothing => true
    case FromDown(m) => g.down != [] && g.down[0] == Frame(id, m) && ClientFree(g)
    case FromUp(m) => g.up != [] && g.up[0] == Frame(id, m) && ServerFree(g)
  }

  /** The frame alone tells the client which handler to spawn. */
  function Spawned(id: Id, r: Recv): set<Job> {
    match r
    case FromDown(TCPOpen) => {Job(id, TcpOpen)}
    case FromDown(Req(upgrade)) => {Job(id, if upgrade then UpgradeReq else PlainReq)}
    case _ => {}
  }

  /** What a step does to the client's tables. */
  function ChangeBy(s: Stream, a: Act): Change {
    if Takes(a) == FromDown(Close) then CloseFrame
    else
      match a
      case OnRelay(r) => if r.CRegister? then AddRelay else if r.COff? || r.KShut? then DropRelay else Keep
      case OnUpgrade(u) => if u.KRegister? then AddRelay else if u.KOff? || u.LShut? then DropRelay else Keep
      case OnExchange(e) =>
        if e.KBegin? then (if s.Exchange? && s.x.h.streamed then AddBody else Keep)
        else if e.KUnlistBody? || e.LStall? then DropBody
        else if e.KListCancel? then AddCancel
        else if e.KUnlistCancel? then DropCancel
        else Keep
  }

  function Advance(link: seq<Frame>, taken: bool, more: seq<Frame>): seq<Frame>
    requires taken ==> link != []
  {
    (if taken then link[1..] else link) + more
  }

  ghost predicate Moves(g: State, id: Id, a: Act, g': State) {
    && id in g.streams && Ready(g, id, Takes(a)) && Effect(g.streams[id], a).Some?
    && var o := Effect(g.streams[id], a).value;
       g' == State(g.streams[id := o.core], Advance(g.down, Takes(a).FromDown?, Tagged(id, o.down)),
                   Advance(g.up, Takes(a).FromUp?, Tagged(id, o.up)), g.log + Tagged(id, o.down),
                   g.jobs + Spawned(id, Takes(a)), g.tables.Apply(id, ChangeBy(g.streams[id], a)))
  }

  ghost predicate Starts(g: State, id: Id, s: Stream, g': State) {
    id !in g.streams && Fresh(s) && g' == g.(streams := g.streams[id := s])
  }

  datatype Step = Open(id: Id, s: Stream) | Act(id: Id, a: Act)

  ghost predicate Next(g: State, t: Step, g': State) {
    match t
    case Open(id, s) => Starts(g, id, s, g')
    case Act(id, a) => Moves(g, id, a, g')
  }

  ghost predicate Run(gs: seq<State>, ts: seq<Step>) {
    && |gs| == |ts| + 1 && gs[0] == START
    && forall i :: 0 <= i < |ts| ==> Next(gs[i], ts[i], gs[i + 1])
  }

  // ---- Projection -------------------------------------------------------

  lemma {:induction false} OfHead(link: seq<Frame>, id: Id)
    requires link != []
    ensures Of(link, id) == if link[0].id == id then [link[0].m] + Of(link[1..], id) else Of(link[1..], id)
  {
  }

  lemma {:induction false} OfAppend(a: seq<Frame>, b: seq<Frame>, id: Id)
    ensures Of(a + b, id) == Of(a, id) + Of(b, id)
  {
    if a == [] {
      assert a + b == b;
    } else {
      assert (a + b)[1..] == a[1..] + b;
      OfAppend(a[1..], b, id);
    }
  }

  lemma {:induction false} OfTagged(id: Id, ms: seq<Msg>, j: Id)
    ensures Of(Tagged(id, ms), j) == if j == id then ms else []
  {
    if ms == [] {
    } else {
      assert Tagged(id, ms)[1..] == Tagged(id, ms[1..]);
      OfTagged(id, ms[1..], j);
    }
  }

  /** A step of one stream moves that stream's part of a shared link and no other. */
  lemma {:induction false} OfAdvance(link: seq<Frame>, id: Id, taken: bool, ms: seq<Msg>, j: Id)
    requires taken ==> link != [] && link[0].id == id
    ensures j != id ==> Of(Advance(link, taken, Tagged(id, ms)), j) == Of(link, j)
    ensures taken ==> Of(link, id) != [] && Of(link, id)[0] == link[0].m
    ensures Of(Advance(link, taken, Tagged(id, ms)), id) == After(Of(link, id), taken, ms)
  {
    var rest := if taken then link[1..] else link;
    if taken {
      OfHead(link, id);
      OfHead(link, j);
    }
    OfAppend(rest, Tagged(id, ms), j);
    OfTagged(id, ms, j);
    OfAppend(rest, Tagged(id, ms), id);
    OfTagged(id, ms, id);
    assert Of(rest, j) + [] == Of(rest, j);
    assert Of(rest, id) + [] == Of(rest, id);
  }

  // ---- Every stream keeps its invariant ---------------------------------

  ghost predicate StreamGood(s: Stream, down: seq<Msg>, up: seq<Msg>) {
    match s
    case Relay(t) => RC.Good(t, down, up) && RB.Good(t, down, up)
    case Exchange(x) => XC.Good(x, down, up)
    case Upgrade(w) => W.Inv(w, down, up)
  }

  ghost predicate IdGood(g: State, id: Id) {
    if id in g.streams then StreamGood(g.streams[id], Of(g.down, id), Of(g.up, id))
    else Of(g.down, id) == [] && Of(g.up, id) == []
  }

  lemma {:induction false} FreshGood(s: Stream)
    requires Fresh(s)
    ensures StreamGood(s, [], [])
  {
    hide RC.Good, RB.Good, XC.Good, W.Inv;
    match s
    case Relay(t) => RC.InitGood(t.i.prefix); RB.InitGood(t.i.prefix);
    case Exchange(x) => XC.InitGood(x.h.streamed, x.h.head);
    case Upgrade(_) => W.InitInv();
  }

  lemma {:induction false} StreamStep(s: Stream, a: Act, down: seq<Msg>, up: seq<Msg>)
    requires StreamGood(s, down, up) && Effect(s, a).Some? && Arrived(Takes(a), down, up)
    ensures var o := Effect(s, a).value;
            StreamGood(o.core, After(down, Takes(a).FromDown?, o.down), After(up, Takes(a).FromUp?, o.up))
  {
    hide RC.Good, RB.Good, XC.Good, W.Inv, R.Effect, X.Effect, W.Effect, R.Takes, X.Takes, W.Takes;
    match (s, a)
    case (Relay(t), OnRelay(r)) => RC.StepGood(t, r, down, up); RB.StepGood(t, r, down, up);
    case (Exchange(x), OnExchange(e)) => XC.StepGood(x, e, down, up);
    case (Upgrade(w), OnUpgrade(u)) => W.StepKeeps(w, u, down, up);
    case _ =>
  }

  lemma {:induction false} MovesGood(g: State, id: Id, a: Act, g': State, j: Id)
    requires Moves(g, id, a, g') && IdGood(g, id) && IdGood(g, j)
    ensures IdGood(g', j)
  {
    hide StreamGood, Effect, Takes, Of, ChangeBy, Spawned;
    var o := Effect(g.streams[id], a).value;
    OfAdvance(g.down, id, Takes(a).FromDown?, o.down, j);
    OfAdvance(g.up, id, Takes(a).FromUp?, o.up, j);
    if j == id {
      StreamStep(g.streams[id], a, Of(g.down, id), Of(g.up, id));
    }
  }

  lemma {:induction false} NextGood(g: State, t: Step, g': State, j: Id)
    requires Next(g, t, g') && IdGood(g, t.id) && IdGood(g, j)
    ensures IdGood(g', j)
  {
    hide StreamGood, Of;
    match t
    case Open(id, s) => FreshGood(s);
    case Act(id, a) => hide IdGood, Moves; MovesGood(g, id, a, g', j);
  }

  /** In every interleaving of any number of streams, every ID keeps the invariant of its
      kind on its own part of the links. */
  lemma {:induction false} EveryIdGood(gs: seq<State>, ts: seq<Step>, i: nat, j: Id)
    requires Run(gs, ts) && i < |gs|
    ensures IdGood(gs[i], j)
  {
    hide Next, StreamGood;
    if i == 0 {
    } else {
      hide IdGood;
      EveryIdGood(gs, ts, i - 1, j);
      EveryIdGood(gs, ts, i - 1, ts[i - 1].id);
      NextGood(gs[i - 1], ts[i - 1], gs[i], j);
    }
  }

  // ---- What that promises, for every run and every ID -------------------

  /** Relayed connections: the prefix properties, and where every byte is. */
  lemma {:induction false} EveryRelay(gs: seq<State>, ts: seq<Step>, i: nat, id: Id)
    requires Run(gs, ts) && i < |gs| && id in gs[i].streams && gs[i].streams[id].Relay?
    ensures var t := gs[i].streams[id].t;
            && t.i.written <= t.i.prefix + t.i.read
            && t.o.written <= t.o.read
            && t.s.inbox.taken <= t.s.inbox.processed
            && !t.n.early
            && (t.s.inbox.listed ==> !t.s.inbox.closed && !t.s.inbox.done)
    ensures var t := gs[i].streams[id].t;
            && t.i.prefix + t.i.read == t.i.written + InHand(t.k.hand) + t.i.torn + Flat(t.i.missed)
                                        + Flat(Datas(Of(gs[i].down, id))) + t.i.unsent
            && var b := t.s.inbox;
               t.o.read == t.o.written + t.o.torn + Flat(b.queue) + InHand(b.hand) + Flat(b.refused)
                           + Flat(Datas(Of(gs[i].up, id))) + t.o.unsent
  {
    EveryIdGood(gs, ts, i, id);
    var g := gs[i];
    hide R.Inv, RC.Whole, RB.BackOf, Flat, Datas;
    R.Promises(g.streams[id].t, Of(g.down, id), Of(g.up, id));
    R.InwardAccount(g.streams[id].t, Of(g.down, id), Of(g.up, id));
    R.OutwardAccount(g.streams[id].t, Of(g.down, id), Of(g.up, id));
  }

  /** When nothing failed: exactly when a relayed connection is delivered whole, either way, and
      that it leaves the client's table. */
  lemma {:induction false} EveryRelayWhole(gs: seq<State>, ts: seq<Step>, i: nat, id: Id)
    requires Run(gs, ts) && i < |gs| && id in gs[i].streams && gs[i].streams[id].Relay? && gs[i].streams[id].t.n.clean
    ensures var t := gs[i].streams[id].t;
            RC.Finished(t.s.phase) && t.k.hand.None? && Datas(Of(gs[i].down, id)) == [] ==>
              && (t.i.written == t.i.prefix + t.i.read <==> Flat(t.i.missed) == [])
              && (!t.n.localFirst ==> t.i.written == t.i.prefix + t.i.read)
    ensures var t := gs[i].streams[id].t;
            && (t.s.inbox.hand.None? && Datas(Of(gs[i].up, id)) == [] ==>
                  (t.o.written == t.o.read <==>
                     Flat(t.s.inbox.queue) == [] && Flat(t.s.inbox.refused) == [] && t.o.unsent == []))
            && (!t.n.cut && t.s.drain == R.Stopped ==> t.o.read == t.o.written + t.o.unsent)
    ensures var t := gs[i].streams[id].t;
            RC.Finished(t.s.phase) && Close !in Of(gs[i].down, id) ==> !t.k.relay
  {
    EveryIdGood(gs, ts, i, id);
    var g := gs[i];
    var t, down, up := g.streams[id].t, Of(g.down, id), Of(g.up, id);
    hide R.Inv, RC.Whole, RB.BackOf, RC.Finished, Flat, Datas;
    if RC.Finished(t.s.phase) && t.k.hand.None? && Datas(down) == [] {
      RC.DeliveredIff(t, down, up);
      if !t.n.localFirst {
        RC.DeliveredWhole(t, down, up);
      }
    }
    if t.s.inbox.hand.None? && Datas(up) == [] {
      RB.ReturnedIff(t, down, up);
    }
    if !t.n.cut && t.s.drain == R.Stopped {
      RB.ReturnedWhole(t, down, up);
    }
    RC.LeavesTable(t, down, up);
  }

  /** HTTP exchanges: what the viewer gets, where the rest is, and exactly when it is all. */
  lemma {:induction false} EveryResponse(gs: seq<State>, ts: seq<Step>, i: nat, id: Id)
    requires Run(gs, ts) && i < |gs| && id in gs[i].streams && gs[i].streams[id].Exchange?
    ensures var d := gs[i].streams[id].x.d;
            && (d.seen.None? ==> d.viewer == [])
            && (d.seen == Some(Streamed) ==> d.viewer <= d.body)
            && (d.seen.Some? && d.seen.value.Inline? ==> d.viewer <= d.seen.value.body)
            && (d.seen.Some? && d.seen.value.Inline? && d.seen.value.genuine ==> d.seen.value.body == d.body)
    ensures var d, b := gs[i].streams[id].x.d, gs[i].streams[id].x.s.inbox;
            d.seen == Some(Streamed) ==>
              d.body == d.viewer + d.torn + Flat(b.queue) + InHand(b.hand) + Flat(b.refused)
                        + Flat(Datas(Of(gs[i].up, id))) + d.unsent
    ensures var x := gs[i].streams[id].x;
            x.n.clean && X.Over(x.s.phase) ==>
              && (x.d.viewer == x.d.body <==> !x.n.skipped) && (x.d.eof <==> !x.d.broke && !x.n.skipped)
              && (!x.n.stalled ==> !x.n.skipped)
  {
    EveryIdGood(gs, ts, i, id);
    var g := gs[i];
    var x := g.streams[id].x;
    hide X.Inv, XC.Whole, Flat, Datas;
    X.ViewerPromise(x, Of(g.down, id), Of(g.up, id));
    X.ReplyAccount(x, Of(g.down, id), Of(g.up, id));
    if x.n.clean && X.Over(x.s.phase) {
      XC.ViewerGetsIff(x, Of(g.down, id), Of(g.up, id));
    }
  }

  /** HTTP exchanges: what the local application reads of an upload, where the rest is, and
      exactly when it is all. */
  lemma {:induction false} EveryUpload(gs: seq<State>, ts: seq<Step>, i: nat, id: Id)
    requires Run(gs, ts) && i < |gs| && id in gs[i].streams && gs[i].streams[id].Exchange?
    ensures var x := gs[i].streams[id].x;
            && x.h.lost <= |x.h.handled| && x.u.got <= Flat(x.h.handled[x.h.lost..])
            && (Flat(x.h.handled[..x.h.lost]) == [] ==> x.u.got <= x.h.head + x.h.rest)
            && (x.u.end == X.Aborted ==> x.u.aborted)
            && x.h.head + x.h.rest == Flat(x.h.handled[..x.h.lost]) + x.u.got + x.u.rem + Flat(x.u.queue)
                                      + InHand(x.k.hand) + Flat(x.h.missed) + Flat(Datas(Of(gs[i].down, id)))
                                      + x.h.unsent
    ensures var x := gs[i].streams[id].x;
            x.n.clean && !x.n.stalled && x.u.end == X.Eof && (X.Unsent(x.k.phase) || !x.n.cutShort) ==>
              && (x.h.eof <==> !x.h.broke) && x.h.lost <= |x.h.sent| && x.u.got == Flat(x.h.sent[x.h.lost..])
              && (x.h.lost == 0 ==> x.u.got == x.h.head + x.h.rest)
              && (x.h.head != [] && x.u.got == x.h.head + x.h.rest ==> x.h.lost == 0)
  {
    EveryIdGood(gs, ts, i, id);
    var g := gs[i];
    var x := g.streams[id].x;
    hide X.Inv, XC.Whole, Flat, Datas;
    X.UploadPromise(x, Of(g.down, id), Of(g.up, id));
    X.UploadAccount(x, Of(g.down, id), Of(g.up, id));
    if x.n.clean && !x.n.stalled && x.u.end == X.Eof && (X.Unsent(x.k.phase) || !x.n.cutShort) {
      if X.Unsent(x.k.phase) {
        XC.NotCutShort(x, Of(g.down, id), Of(g.up, id));
      }
      XC.UploadExact(x, Of(g.down, id), Of(g.up, id));
    }
  }

  /** Channels: none is closed twice, and an ID in one of the client's tables or in the
      server's has open ones. */
  lemma {:induction false} EveryChannel(gs: seq<State>, ts: seq<Step>, i: nat, id: Id)
    requires Run(gs, ts) && i < |gs| && id in gs[i].streams && gs[i].streams[id].Exchange?
    ensures var x := gs[i].streams[id].x;
            && x.u.closes <= 1 && x.k.cancelCloses <= 1
            && (x.k.body ==> x.u.made && x.u.closes == 0)
            && (x.k.cancel ==> x.k.cancelCloses == 0)
            && (x.s.inbox.listed ==> !x.s.inbox.closed && !x.s.inbox.done)
  {
    EveryIdGood(gs, ts, i, id);
    var g := gs[i];
    var x := g.streams[id].x;
    hide X.Inv, XC.Whole;
    X.ChannelPromise(x, Of(g.down, id), Of(g.up, id));
  }

  /** A request ID on either link belongs to a stream that was started. */
  lemma {:induction false} NoStrayFrames(gs: seq<State>, ts: seq<Step>, i: nat, id: Id)
    requires Run(gs, ts) && i < |gs| && id !in gs[i].streams
    ensures Of(gs[i].down, id) == [] && Of(gs[i].up, id) == []
  {
    EveryIdGood(gs, ts, i, id);
  }

  /** Upgraded connections: the prefix properties, and where every byte is. */
  lemma {:induction false} EveryUpgrade(gs: seq<State>, ts: seq<Step>, i: nat, id: Id)
    requires Run(gs, ts) && i < |gs| && id in gs[i].streams && gs[i].streams[id].Upgrade?
    ensures var w := gs[i].streams[id].w;
            && w.i.lost <= |w.i.handled| && w.i.handled <= w.i.sent && w.i.written <= Flat(w.i.handled[w.i.lost..])
            && (Flat(w.i.handled[..w.i.lost]) == [] ==> w.i.written <= w.i.read)
            && w.o.written <= w.o.read
            && w.s.inbox.taken <= w.s.inbox.processed
            && (w.s.inbox.listed ==> !w.s.inbox.closed && !w.s.inbox.done)
    ensures var w := gs[i].streams[id].w;
            && w.i.read == Flat(w.i.handled[..w.i.lost]) + w.i.written + InHand(w.k.hand) + w.i.torn
                           + Flat(w.i.missed) + Flat(Datas(Of(gs[i].down, id))) + w.i.unsent
            && var b := w.s.inbox;
               w.o.read == w.o.written + w.o.torn + Flat(b.queue) + InHand(b.hand) + Flat(b.refused)
                           + Flat(Datas(Of(gs[i].up, id))) + w.o.unsent
  {
    EveryIdGood(gs, ts, i, id);
    var g := gs[i];
    hide W.Inv, Flat, Datas;
    W.Promises(g.streams[id].w, Of(g.down, id), Of(g.up, id));
    W.InwardAccount(g.streams[id].w, Of(g.down, id), Of(g.up, id));
    W.OutwardAccount(g.streams[id].w, Of(g.down, id), Of(g.up, id));
  }

  /** Exactly when an upgraded connection with nothing under way is delivered whole, either way;
      and what that is while the relay is live. */
  lemma {:induction false} EveryUpgradeWhole(gs: seq<State>, ts: seq<Step>, i: nat, id: Id)
    requires Run(gs, ts) && i < |gs| && id in gs[i].streams && gs[i].streams[id].Upgrade?
    ensures var w := gs[i].streams[id].w;
            w.k.hand.None? && Datas(Of(gs[i].down, id)) == [] ==>
              && w.i.lost <= |w.i.handled|
              && (w.i.written == w.i.read <==>
                    Flat(w.i.handled[..w.i.lost]) == [] && w.i.torn == [] && Flat(w.i.missed) == [] && w.i.unsent == [])
              && (W.Live(w.k) && w.s.reader == W.Running ==>
                    && w.i.lost <= |w.i.sent| && w.i.written == Flat(w.i.sent[w.i.lost..])
                    && (w.i.written == w.i.read <==> Flat(w.i.sent[..w.i.lost]) == []))
    ensures var w := gs[i].streams[id].w;
            w.s.inbox.hand.None? && Datas(Of(gs[i].up, id)) == [] ==>
              && (w.o.written == w.o.read <==>
                    && w.o.torn == [] && Flat(w.s.inbox.queue) == [] && Flat(w.s.inbox.refused) == []
                    && w.o.unsent == [])
              && (w.k.phase == W.Reading && w.s.inbox.listed && w.s.inbox.queue == [] && w.s.drain == W.Running ==>
                    w.o.written == w.o.read)
  {
    EveryIdGood(gs, ts, i, id);
    var g := gs[i];
    var w, down, up := g.streams[id].w, Of(g.down, id), Of(g.up, id);
    hide W.Inv, Flat, Datas;
    W.LiveIff(w, down, up);
    if w.k.hand.None? && Datas(down) == [] {
      W.ArrivedIff(w, down, up);
    }
    if w.s.inbox.hand.None? && Datas(up) == [] {
      W.ReturnedIff(w, down, up);
    }
  }
}
