/**
 What clients and SSH connections can always get done: what is granted is recorded and can be
 given back without a trace, and whatever a client or a connection was doing, its end gives
 back everything.
 */
module OwnershipHappens {
  import opened Basics
  import opened Book
  import opened Subdomain
  import opened Ownership
  import Conservation
  import PortConservation
  import Ports = PortAllocator
  import Wire = FrameCodec

  ghost predicate Chain(cfg: Config, ws: seq<World>, acts: seq<Act>) {
    && |ws| == |acts| + 1
    && forall i :: 0 <= i < |acts| ==> Step(cfg, ws[i], acts[i]) == Some(ws[i + 1])
  }

  /** Some steps lead from one state to the other. */
  ghost predicate Leads(cfg: Config, w: World, n: World) {
    exists ws, acts :: Chain(cfg, ws, acts) && ws[0] == w && ws[|acts|] == n
  }

  lemma {:induction false} Stays(cfg: Config, w: World)
    ensures Leads(cfg, w, w)
  {
    var ws, acts: seq<Act> := [w], [];
    assert Chain(cfg, ws, acts);
  }

  lemma {:induction false} Then(cfg: Config, w: World, m: World, a: Act, n: World)
    requires Leads(cfg, w, m) && Step(cfg, m, a) == Some(n)
    ensures Leads(cfg, w, n)
  {
    hide Step;
    var ws, acts :| Chain(cfg, ws, acts) && ws[0] == w && ws[|acts|] == m;
    var ws', acts' := ws + [n], acts + [a];
    forall i | 0 <= i < |acts'| ensures Step(cfg, ws'[i], acts'[i]) == Some(ws'[i + 1]) {
      if i < |acts| {
        assert ws'[i] == ws[i] && ws'[i + 1] == ws[i + 1] && acts'[i] == acts[i];
      }
    }
    assert Chain(cfg, ws', acts') && ws'[0] == w && ws'[|acts'|] == n;
  }

  lemma {:induction false} ChainReachable(cfg: Config, ws: seq<World>, acts: seq<Act>, i: nat)
    requires Chain(cfg, ws, acts) && i < |ws| && Reachable(cfg, ws[0])
    ensures Reachable(cfg, ws[i])
  {
    if i > 0 {
      ChainReachable(cfg, ws, acts, i - 1);
      hide Step, Reachable;
      assert Step(cfg, ws[i - 1], acts[i - 1]) == Some(ws[i - 1 + 1]);
      Conservation.Reaches(cfg, ws[i - 1], acts[i - 1], ws[i]);
    }
  }

  // ---- Names ----------------------------------------------------------------

  /** A name that is granted is registered for its client, and unregistering it leaves nothing but
      a used-up ID. */
  lemma {:induction false} RegisterThenUnregister(cfg: Config, w: World, h: Client, requested: Bytes, generated: Bytes,
                                                  id: Id) returns (via: World)
    requires Reachable(cfg, w) && !cfg.late && Ready(cfg, w, h) && Generated(generated) && id !in w.ids
    requires Grants(cfg, w.http, w.hs[h], requested, generated)
    ensures Leads(cfg, w, via) && Leads(cfg, via, w.(ids := w.ids + {id}))
    ensures var name := if requested == [] then generated else requested;
            && via.http == w.http[name := Entry(id, h)] && via.tls == w.tls && via.pool == w.pool
            && h in via.hs && via.hs[h].http == w.hs[h].http[id := name] && via.hs[h].count == w.hs[h].count + 1
  {
    Conservation.ReachableInv(cfg, w);
    assert HandlerOk(w.hs[h], w.ids);
    hide Reachable, Inv, HandlerOk, Grants;
    var name := NameFor(requested, generated);
    via := AddHttp(w, h, name, id);
    Stays(cfg, w);
    Stays(cfg, via);
    hide Leads;
    Then(cfg, w, w, AHttp(h, requested, generated, id), via);
    NameGoes(cfg, w, h, name, id);
  }

  lemma {:induction false} NameGoes(cfg: Config, w: World, h: Client, name: Bytes, id: Id)
    requires Ready(cfg, w, h) && name !in w.http && id !in w.hs[h].http
    ensures Leads(cfg, AddHttp(w, h, name, id), w.(ids := w.ids + {id}))
  {
    var via := AddHttp(w, h, name, id);
    Stays(cfg, via);
    hide Leads;
    var x := w.hs[h];
    var m := via.(hs := via.hs[h := x.(busy := Dropping(id, name))]);
    assert x.http[id := name] - {id} == x.http;
    Then(cfg, via, via, AUnregister(h, id), m);
    assert w.http[name := Entry(id, h)] - {name} == w.http;
    assert m.hs[h := x] == w.hs;
    Then(cfg, via, m, AUnregistered(h), w.(ids := w.ids + {id}));
  }

  /** The same for a TLS name, which no client frame takes back. */
  lemma {:induction false} TlsRegisters(cfg: Config, w: World, h: Client, requested: Bytes, generated: Bytes, id: Id)
    returns (n: World)
    requires Ready(cfg, w, h) && Generated(generated) && id !in w.ids
    requires Grants(cfg, w.tls, w.hs[h], requested, generated)
    ensures Leads(cfg, w, n)
    ensures var name := if requested == [] then generated else requested;
            && n.tls == w.tls[name := Entry(id, h)] && n.http == w.http && n.pool == w.pool
            && h in n.hs && n.hs[h].tls == w.hs[h].tls[id := name] && n.hs[h].count == w.hs[h].count + 1
  {
    Stays(cfg, w);
    hide Leads, Grants;
    n := RegisterTls(cfg, w, h, requested, generated, id).value;
    Then(cfg, w, w, ATls(h, requested, generated, id), n);
  }

  // ---- Ports ----------------------------------------------------------------

  /** A TCP request gets the port it asks for, if that is free and opens, or any free one. */
  lemma {:induction false} PortIsGranted(cfg: Config, w: World, h: Client, preferred: u16, id: Id)
    returns (n: World, p: u16)
    requires Inv(cfg, w) && Ready(cfg, w, h) && id !in w.ids && w.hs[h].count < 20 && id !in w.hs[h].tcp
    requires if preferred == 0 then exists q: u16 :: w.pool.InRange(q) && q !in w.pool.used
             else w.pool.InRange(preferred) && preferred !in w.pool.used
    requires |cfg.tcpHost| + 1 + |Decimal(cfg.end)| <= 255
    ensures Leads(cfg, w, n) && p !in w.pool.used && cfg.start <= p <= cfg.end && (preferred != 0 ==> p == preferred)
    ensures n.pool.used == w.pool.used + {p} && n.http == w.http && n.tls == w.tls
    ensures h in n.hs && n.hs[h] == w.hs[h].(tcp := w.hs[h].tcp[id := p], count := w.hs[h].count + 1)
  {
    Stays(cfg, w);
    hide Leads, HandlersOk, SideOk;
    if preferred == 0 {
      Ports.AutomaticGrant(w.pool);
    } else {
      Ports.PreferredGrant(w.pool, preferred);
    }
    hide Ports.Pool.Allocate;
    var x := w.hs[h];
    p := w.pool.Allocate(preferred).0.value;
    var w1 := w.(hs := w.hs[h := x.(busy := Asking(preferred))]);
    Then(cfg, w, w, AAsk(h, preferred), w1);
    var w2 := w.(pool := w.pool.Allocate(preferred).1, hs := w.hs[h := x.(busy := Holding(p))]);
    assert w1.hs[h := x.(busy := Holding(p))] == w2.hs;
    Then(cfg, w, w1, ATake(h), w2);
    n := PortIsAnnounced(cfg, w, w2, h, x, p, id);
  }

  /** A port that does not open goes back. */
  lemma {:induction false} PortGoesBack(cfg: Config, w: World, m: World, h: Client, x: Handler, p: u16, id: Id)
    returns (n: World)
    requires Leads(cfg, w, m) && h in m.hs && m.hs[h] == x.(busy := Holding(p)) && id !in m.ids && x.busy == Idle
    ensures Leads(cfg, w, n) && n == m.(pool := n.pool, hs := m.hs[h := x]) && n.pool.used == m.pool.used - {p}
    ensures n.pool == m.pool.(used := n.pool.used)
  {
    hide Leads;
    n := m.(pool := m.pool.Release(p), hs := m.hs[h := x]);
    Then(cfg, w, m, AListen(h, false, id), n);
  }

  lemma {:induction false} PortIsAnnounced(cfg: Config, w: World, m: World, h: Client, x: Handler, p: u16, id: Id)
    returns (n: World)
    requires Leads(cfg, w, m) && h in m.hs && m.hs[h] == x.(busy := Holding(p)) && id !in m.ids && x.busy == Idle
    requires p <= cfg.end && |cfg.tcpHost| + 1 + |Decimal(cfg.end)| <= 255
    ensures Leads(cfg, w, n) && n.pool == m.pool && n.http == m.http && n.tls == m.tls
    ensures h in n.hs && n.hs[h] == x.(tcp := x.tcp[id := p], count := x.count + 1)
  {
    hide Leads;
    PortConservation.DecimalGrows(p, cfg.end);
    hide Decimal;
    var y := x.(tcp := x.tcp[id := p], count := x.count + 1);
    var m1 := m.(ids := m.ids + {id}, hs := m.hs[h := y.(busy := Announcing(id))]);
    Then(cfg, w, m, AListen(h, true, id), m1);
    n := m1.(hs := m1.hs[h := y]);
    Then(cfg, w, m1, AAnnounce(h), n);
  }

  // ---- SSH forwards ---------------------------------------------------------

  /** An SSH forward of a free port is granted, and cancelling it leaves no trace. */
  lemma {:induction false} ForwardThenCancel(cfg: Config, w: World, c: Conn, p: u16) returns (via: World)
    requires w.pool.Valid() && c in w.ss && w.ss[c].underway.None? && !w.ss[c].ending
    requires p != 0 && w.pool.InRange(p) && p !in w.pool.used && p !in w.ss[c].forwards
    ensures Leads(cfg, w, via) && Leads(cfg, via, w)
    ensures via.pool.used == w.pool.used + {p} && c in via.ss && via.ss[c].forwards == w.ss[c].forwards + {p}
  {
    Stays(cfg, w);
    hide Leads;
    var x := w.ss[c];
    var pool := w.pool.(used := w.pool.used + {p});
    var w1 := w.(pool := pool, ss := w.ss[c := x.(underway := Some(p))]);
    Then(cfg, w, w, ASshAsk(c, p), w1);
    via := w.(pool := pool, ss := w.ss[c := x.(forwards := x.forwards + {p})]);
    assert w1.ss[c := x.(forwards := x.forwards + {p})] == via.ss;
    Then(cfg, w, w1, ASshListen(c, true), via);
    ForwardGoes(cfg, w, via, c, p);
  }

  lemma {:induction false} ForwardGoes(cfg: Config, w: World, via: World, c: Conn, p: u16)
    requires c in w.ss && w.ss[c].underway.None? && !w.ss[c].ending && p !in w.pool.used && p !in w.ss[c].forwards
    requires via == w.(pool := w.pool.(used := w.pool.used + {p}),
                       ss := w.ss[c := w.ss[c].(forwards := w.ss[c].forwards + {p})])
    ensures Leads(cfg, via, w)
  {
    Stays(cfg, via);
    hide Leads;
    assert w.pool.used + {p} - {p} == w.pool.used && w.ss[c].forwards + {p} - {p} == w.ss[c].forwards;
    assert via.ss[c := w.ss[c]] == w.ss;
    Then(cfg, via, via, ASshCancel(c, p), w);
  }

  /** Whatever it was doing, a connection that ends gives back every port it held. */
  lemma {:induction false} ConnectionEnds(cfg: Config, w: World, c: Conn) returns (n: World)
    requires c in w.ss
    ensures Leads(cfg, w, n) && c in n.ss && n.ss[c] == Ssh({}, None, true)
    ensures n.pool.used == w.pool.used - w.ss[c].PortsHeld().Values && n.hs == w.hs
  {
    Stays(cfg, w);
    hide Leads;
    n := w;
    var x := w.ss[c];
    if x.underway.Some? {
      n := w.(pool := w.pool.Release(x.underway.value), ss := w.ss[c := x.(underway := None)]);
      Then(cfg, w, w, ASshListen(c, false), n);
    }
    var m := n;
    n := m.(ss := m.ss[c := m.ss[c].(ending := true)]);
    Then(cfg, w, m, ASshEnd(c), n);
    SshValues(x);
    n := ForwardsEnd(cfg, w, n, c);
  }

  lemma {:induction false} SshValues(x: Ssh)
    ensures x.PortsHeld().Values == x.forwards + if x.underway.Some? then {x.underway.value} else {}
  {
    var m, want := x.PortsHeld(), x.forwards + if x.underway.Some? then {x.underway.value} else {};
    forall p | p in want ensures p in m.Values {
      if p in x.forwards {
        assert Forward(p) in m && m[Forward(p)] == p;
      } else {
        assert Underway in m && m[Underway] == p;
      }
    }
    assert forall s :: s in m ==> m[s] in want;
  }

  lemma {:induction false} ForwardsEnd(cfg: Config, w: World, m: World, c: Conn) returns (n: World)
    requires Leads(cfg, w, m) && c in m.ss && m.ss[c].ending && m.ss[c].underway.None?
    ensures Leads(cfg, w, n) && c in n.ss && n.ss[c] == Ssh({}, None, true)
    ensures n.pool.used == m.pool.used - m.ss[c].forwards && n.hs == m.hs
    decreases |m.ss[c].forwards|
  {
    hide Leads;
    if m.ss[c].forwards == {} {
      n := m;
    } else {
      var p :| p in m.ss[c].forwards;
      var m1 := SshRelease(m, c, p);
      Then(cfg, w, m, ASshDrop(c, p), m1);
      n := ForwardsEnd(cfg, w, m1, c);
    }
  }

  // ---- A client's end -------------------------------------------------------

  /** Whatever its frame loop was doing, it can finish it. */
  lemma {:induction false} LoopFinishes(cfg: Config, w: World, h: Client, id: Id) returns (n: World)
    requires Inv(cfg, w) && h in w.hs && id !in w.ids && !w.hs[h].busy.Cleaning?
    ensures Leads(cfg, w, n) && h in n.hs && n.hs[h].busy == Idle && n.hs[h].closed == w.hs[h].closed
  {
    Stays(cfg, w);
    assert HandlerOk(w.hs[h], w.ids);
    hide Leads, HandlersOk, SideOk, HandlerOk;
    n := w;
    var x := w.hs[h];
    match x.busy {
      case Idle | Cleaning(_, _, _) =>
      case Dropping(_, name) =>
        n := w.(http := w.http - {name}, hs := w.hs[h := x.(busy := Idle)]);
        Then(cfg, w, w, AUnregistered(h), n);
      case Asking(preferred) =>
        n := PortIsTried(cfg, w, h, id);
      case Holding(p) =>
        n := PortGoesBack(cfg, w, w, h, x.(busy := Idle), p, id);
      case Announcing(_) =>
        n := AnswerGoes(cfg, w, h);
    }
  }

  lemma {:induction false} PortIsTried(cfg: Config, w: World, h: Client, id: Id) returns (n: World)
    requires w.pool.Valid() && h in w.hs && id !in w.ids && w.hs[h].busy.Asking?
    ensures Leads(cfg, w, n) && h in n.hs && n.hs[h] == w.hs[h].(busy := Idle)
  {
    Stays(cfg, w);
    hide Leads, Ports.Pool.Allocate;
    var x := w.hs[h];
    var (r, pool) := w.pool.Allocate(x.busy.preferred);
    var m := w.(pool := pool, hs := w.hs[h := x.(busy := if r.Some? then Holding(r.value) else Idle)]);
    Then(cfg, w, w, ATake(h), m);
    n := m;
    if r.Some? {
      n := PortGoesBack(cfg, w, m, h, x.(busy := Idle), r.value, id);
    }
  }

  lemma {:induction false} AnswerGoes(cfg: Config, w: World, h: Client) returns (n: World)
    requires h in w.hs && HandlerOk(w.hs[h], w.ids) && w.hs[h].busy.Announcing?
    ensures Leads(cfg, w, n) && h in n.hs && n.hs[h] == w.hs[h].(busy := Idle)
  {
    Stays(cfg, w);
    hide Leads, Wire.EncodeRegisterOK, TcpURL;
    n := Announce(cfg, w, h).value;
    Then(cfg, w, w, AAnnounce(h), n);
  }

  /** Clean-up gives the names and ports back one by one. */
  lemma {:induction false} CleansHttp(cfg: Config, w: World, m: World, h: Client) returns (n: World)
    requires Leads(cfg, w, m) && h in m.hs && m.hs[h].busy.Cleaning? && m.hs[h].busy.httpLeft <= m.hs[h].http.Keys
    ensures Leads(cfg, w, n) && h in n.hs && n.hs[h] == m.hs[h].(busy := m.hs[h].busy.(httpLeft := {}))
    decreases |m.hs[h].busy.httpLeft|
  {
    hide Leads;
    var x := m.hs[h];
    if x.busy.httpLeft == {} {
      n := m;
    } else {
      var id :| id in x.busy.httpLeft;
      var m1 := CleanHttp(m, h, id).value;
      Then(cfg, w, m, ACleanHttp(h, id), m1);
      n := CleansHttp(cfg, w, m1, h);
    }
  }

  lemma {:induction false} CleansTcp(cfg: Config, w: World, m: World, h: Client) returns (n: World)
    requires Leads(cfg, w, m) && h in m.hs && m.hs[h].busy.Cleaning? && m.hs[h].busy.tcpLeft <= m.hs[h].tcp.Keys
    ensures Leads(cfg, w, n) && h in n.hs && n.hs[h] == m.hs[h].(busy := m.hs[h].busy.(tcpLeft := {}))
    decreases |m.hs[h].busy.tcpLeft|
  {
    hide Leads;
    var x := m.hs[h];
    if x.busy.tcpLeft == {} {
      n := m;
    } else {
      var id :| id in x.busy.tcpLeft;
      var m1 := CleanTcp(m, h, id).value;
      Then(cfg, w, m, ACleanTcp(h, id), m1);
      n := CleansTcp(cfg, w, m1, h);
    }
  }

  lemma {:induction false} CleansTls(cfg: Config, w: World, m: World, h: Client) returns (n: World)
    requires Leads(cfg, w, m) && h in m.hs && m.hs[h].busy.Cleaning? && m.hs[h].busy.tlsLeft <= m.hs[h].tls.Keys
    ensures Leads(cfg, w, n) && h in n.hs && n.hs[h] == m.hs[h].(busy := m.hs[h].busy.(tlsLeft := {}))
    decreases |m.hs[h].busy.tlsLeft|
  {
    hide Leads;
    var x := m.hs[h];
    if x.busy.tlsLeft == {} {
      n := m;
    } else {
      var id :| id in x.busy.tlsLeft;
      var m1 := CleanTls(m, h, id).value;
      Then(cfg, w, m, ACleanTls(h, id), m1);
      n := CleansTls(cfg, w, m1, h);
    }
  }

  lemma {:induction false} CleanUpFinishes(cfg: Config, w: World, m: World, h: Client) returns (n: World)
    requires Leads(cfg, w, m) && h in m.hs && m.hs[h].busy.Cleaning?
    requires var x := m.hs[h];
             && x.busy.httpLeft <= x.http.Keys && x.busy.tcpLeft <= x.tcp.Keys && x.busy.tlsLeft <= x.tls.Keys
    ensures Leads(cfg, w, n) && h in n.hs && n.hs[h].closed && n.hs[h].busy == Idle
  {
    hide Leads;
    n := CleansHttp(cfg, w, m, h);
    n := CleansTcp(cfg, w, n, h);
    n := CleansTls(cfg, w, n, h);
    var v := n;
    n := v.(hs := v.hs[h := v.hs[h].(busy := Idle, closed := true)]);
    Then(cfg, w, v, ACleanEnd(h), n);
  }

  lemma {:induction false} CleanUpRuns(cfg: Config, w: World, m: World, h: Client) returns (n: World)
    requires Leads(cfg, w, m) && h in m.hs && m.hs[h].busy == Idle
    ensures Leads(cfg, w, n) && h in n.hs && n.hs[h].closed && n.hs[h].busy == Idle
  {
    hide Leads;
    n := m;
    if !m.hs[h].closed {
      var x := m.hs[h];
      var v := m.(hs := m.hs[h := x.(busy := Cleaning(x.http.Keys, x.tcp.Keys, x.tls.Keys))]);
      Then(cfg, w, m, ACleanStart(h), v);
      n := CleanUpFinishes(cfg, w, v, h);
    }
  }

  /** Whatever a client was doing when it left, its handler can finish and clean up; and then no
      name in either registry is the client's. */
  lemma {:induction false} ClientEnds(cfg: Config, w: World, h: Client, id: Id) returns (n: World)
    requires Reachable(cfg, w) && !cfg.late && h in w.hs && id !in w.ids
    ensures Leads(cfg, w, n) && h in n.hs && n.hs[h].closed
    ensures (forall s :: s in n.http ==> n.http[s].owner != h) && forall s :: s in n.tls ==> n.tls[s].owner != h
  {
    Conservation.ReachableInv(cfg, w);
    assert HandlerOk(w.hs[h], w.ids);
    hide Reachable, Leads, HandlersOk, SideOk;
    Stays(cfg, w);
    if w.hs[h].busy.Cleaning? {
      n := CleanUpFinishes(cfg, w, w, h);
    } else {
      hide HandlerOk;
      n := LoopFinishes(cfg, w, h, id);
      n := CleanUpRuns(cfg, w, n, h);
    }
    LedReachable(cfg, w, n);
    Conservation.CleanupLeavesNothing(cfg, n, h);
  }

  lemma {:induction false} LedReachable(cfg: Config, w: World, n: World)
    requires Reachable(cfg, w) && Leads(cfg, w, n)
    ensures Reachable(cfg, n)
  {
    hide Reachable, Step;
    var ws, acts :| Chain(cfg, ws, acts) && ws[0] == w && ws[|acts|] == n;
    ChainReachable(cfg, ws, acts, |acts|);
  }
}
