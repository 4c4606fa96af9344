/**
 Names and counts over every run: the registries and the handlers' tables agree exactly, the
 tunnel count is the sum of the tables, cleanup leaves nothing behind, and a tunnel's own
 public URL leads to that tunnel.
 */
module Conservation {
  import opened Basics
  import opened Book
  import opened Subdomain
  import opened Ownership
  import Ports = PortAllocator
  import Wire = FrameCodec

  // ---- One handler changes ----------------------------------------------

  lemma {:induction false} SidesSet(hs: map<Client, Handler>, h: Client, x: Handler)
    ensures HttpSide(hs[h := x]) == HttpSide(hs)[h := x.HttpHeld()]
    ensures TlsSide(hs[h := x]) == TlsSide(hs)[h := x.TlsHeld()]
  {
  }

  lemma {:induction false} HandlerSet(hs: map<Client, Handler>, ids: set<Id>, more: set<Id>, h: Client, x: Handler)
    requires HandlersOk(hs, ids) && ids <= more && HandlerOk(x, more)
    ensures HandlersOk(hs[h := x], more)
  {
    var after := hs[h := x];
    forall k | k in after ensures HandlerOk(after[k], more) {
      if k != h {
        assert HandlerOk(hs[k], ids);
      }
    }
  }

  ghost predicate NewName(cfg: Config, names: Names, name: Bytes) {
    name !in names && name != [] && ValidSubdomain(name) && |PublicURL(name, cfg.base)| <= MAX_URL
  }

  lemma {:induction false} SideAdds(cfg: Config, names: Names, side: map<Client, map<Id, Bytes>>, h: Client, id: Id,
                                    name: Bytes)
    requires SideOk(cfg, names, side) && h in side && id !in side[h] && NewName(cfg, names, name)
    ensures var m: map<Id, Bytes> := side[h]; SideOk(cfg, names[name := Entry(id, h)], side[h := m[id := name]])
  {
    Adds(names, side, h, id, name);
    hide Balanced, ValidSubdomain, PublicURL;
  }

  lemma {:induction false} SideDrops(cfg: Config, names: Names, side: map<Client, map<Id, Bytes>>, h: Client, id: Id)
    requires SideOk(cfg, names, side) && h in side && id in side[h]
    ensures SideOk(cfg, names - {side[h][id]}, side[h := side[h] - {id}])
  {
    Drops(names, side, h, id);
    hide Balanced, ValidSubdomain, PublicURL;
  }

  lemma {:induction false} Looked(hs: map<Client, Handler>, h: Client)
    requires h in hs
    ensures h in HttpSide(hs) && HttpSide(hs)[h] == hs[h].HttpHeld()
    ensures HttpSide(hs)[h := hs[h].HttpHeld()] == HttpSide(hs)
    ensures h in TlsSide(hs) && TlsSide(hs)[h] == hs[h].TlsHeld() && TlsSide(hs)[h := hs[h].TlsHeld()] == TlsSide(hs)
  {
  }

  lemma {:induction false} OneHandler(cfg: Config, w: World, h: Client)
    requires Inv(cfg, w) && h in w.hs
    ensures HandlerOk(w.hs[h], w.ids) && PoolOk(cfg, w.pool)
  {
  }

  /** A step of a handler that changes neither of its names. */
  lemma {:induction false} Quiet(cfg: Config, w: World, h: Client, x: Handler, pool: Ports.Pool, ids: set<Id>)
    requires Inv(cfg, w) && h in w.hs && w.ids <= ids && HandlerOk(x, ids) && PoolOk(cfg, pool)
    requires x.HttpHeld() == w.hs[h].HttpHeld() && x.TlsHeld() == w.hs[h].TlsHeld()
    ensures Inv(cfg, w.(hs := w.hs[h := x], pool := pool, ids := ids))
  {
    SidesSet(w.hs, h, x);
    Looked(w.hs, h);
    hide HandlersOk, HandlerOk, SideOk, HttpSide, TlsSide, Handler.HttpHeld, Handler.TlsHeld, NewName;
    HandlerSet(w.hs, w.ids, ids, h, x);
  }

  lemma {:induction false} HttpAdded(cfg: Config, w: World, h: Client, x: Handler, id: Id, name: Bytes, ids: set<Id>)
    requires Inv(cfg, w) && h in w.hs && w.ids <= ids && HandlerOk(x, ids)
    requires id !in w.hs[h].HttpHeld() && NewName(cfg, w.http, name)
    requires x.HttpHeld() == w.hs[h].HttpHeld()[id := name] && x.TlsHeld() == w.hs[h].TlsHeld()
    ensures Inv(cfg, w.(hs := w.hs[h := x], http := w.http[name := Entry(id, h)], ids := ids))
  {
    SidesSet(w.hs, h, x);
    Looked(w.hs, h);
    hide HandlersOk, HandlerOk, SideOk, HttpSide, TlsSide, Handler.HttpHeld, Handler.TlsHeld, NewName;
    HandlerSet(w.hs, w.ids, ids, h, x);
    SideAdds(cfg, w.http, HttpSide(w.hs), h, id, name);
  }

  lemma {:induction false} HttpDropped(cfg: Config, w: World, h: Client, x: Handler, id: Id)
    requires Inv(cfg, w) && h in w.hs && HandlerOk(x, w.ids) && id in w.hs[h].HttpHeld()
    requires x.HttpHeld() == w.hs[h].HttpHeld() - {id} && x.TlsHeld() == w.hs[h].TlsHeld()
    ensures Inv(cfg, w.(hs := w.hs[h := x], http := w.http - {w.hs[h].HttpHeld()[id]}))
  {
    SidesSet(w.hs, h, x);
    Looked(w.hs, h);
    hide HandlersOk, HandlerOk, SideOk, HttpSide, TlsSide, Handler.HttpHeld, Handler.TlsHeld, NewName;
    HandlerSet(w.hs, w.ids, w.ids, h, x);
    SideDrops(cfg, w.http, HttpSide(w.hs), h, id);
  }

  lemma {:induction false} TlsAdded(cfg: Config, w: World, h: Client, x: Handler, id: Id, name: Bytes, ids: set<Id>)
    requires Inv(cfg, w) && h in w.hs && w.ids <= ids && HandlerOk(x, ids)
    requires id !in w.hs[h].TlsHeld() && NewName(cfg, w.tls, name)
    requires x.TlsHeld() == w.hs[h].TlsHeld()[id := name] && x.HttpHeld() == w.hs[h].HttpHeld()
    ensures Inv(cfg, w.(hs := w.hs[h := x], tls := w.tls[name := Entry(id, h)], ids := ids))
  {
    SidesSet(w.hs, h, x);
    Looked(w.hs, h);
    hide HandlersOk, HandlerOk, SideOk, HttpSide, TlsSide, Handler.HttpHeld, Handler.TlsHeld, NewName;
    HandlerSet(w.hs, w.ids, ids, h, x);
    SideAdds(cfg, w.tls, TlsSide(w.hs), h, id, name);
  }

  lemma {:induction false} TlsDropped(cfg: Config, w: World, h: Client, x: Handler, id: Id)
    requires Inv(cfg, w) && h in w.hs && HandlerOk(x, w.ids) && id in w.hs[h].TlsHeld()
    requires x.TlsHeld() == w.hs[h].TlsHeld() - {id} && x.HttpHeld() == w.hs[h].HttpHeld()
    ensures Inv(cfg, w.(hs := w.hs[h := x], tls := w.tls - {w.hs[h].TlsHeld()[id]}))
  {
    SidesSet(w.hs, h, x);
    Looked(w.hs, h);
    hide HandlersOk, HandlerOk, SideOk, HttpSide, TlsSide, Handler.HttpHeld, Handler.TlsHeld, NewName;
    HandlerSet(w.hs, w.ids, w.ids, h, x);
    SideDrops(cfg, w.tls, TlsSide(w.hs), h, id);
  }

  // ---- Every step keeps the names and the counts ------------------------

  lemma {:induction false} StartInv(cfg: Config)
    ensures Inv(cfg, Start(cfg))
  {
  }

  lemma {:induction false} ConnectKeeps(cfg: Config, w: World, h: Client)
    requires Inv(cfg, w) && Connect(w, h).Some?
    ensures Inv(cfg, Connect(w, h).value)
  {
    var x := NEW_HANDLER;
    HandlerSet(w.hs, w.ids, w.ids, h, x);
    SidesSet(w.hs, h, x);
    Joins(w.http, HttpSide(w.hs), h);
    Joins(w.tls, TlsSide(w.hs), h);
    hide HandlersOk, Balanced, NamesOk, HttpSide, TlsSide;
  }

  lemma {:induction false} AuthKeeps(cfg: Config, w: World, h: Client)
    requires Inv(cfg, w) && !cfg.late && Authenticate(cfg, w, h).Some?
    ensures Inv(cfg, Authenticate(cfg, w, h).value)
  {
    OneHandler(cfg, w, h);
    hide Inv;
    Quiet(cfg, w, h, w.hs[h].(auth := true), w.pool, w.ids);
  }

  lemma {:induction false} NameOk(requested: Bytes, generated: Bytes)
    requires ValidSubdomain(requested) && Generated(generated)
    ensures NameFor(requested, generated) != [] && ValidSubdomain(NameFor(requested, generated))
  {
  }

  lemma {:induction false} CountAdd<V>(m: map<Id, V>, id: Id, v: V)
    requires id !in m
    ensures |m[id := v]| == |m| + 1 && m[id := v].Keys == m.Keys + {id}
  {
    assert m[id := v].Keys == m.Keys + {id};
  }

  lemma {:induction false} CountDrop<V>(m: map<Id, V>, id: Id)
    requires id in m
    ensures |m - {id}| == |m| - 1 && (m - {id}).Keys == m.Keys - {id} && (m - {id})[id := m[id]] == m
  {
    assert (m - {id}).Keys == m.Keys - {id};
    assert |m.Keys| == |m|;
  }

  lemma {:induction false} HandlerAdds(x: Handler, ids: set<Id>, id: Id, name: Bytes)
    requires HandlerOk(x, ids) && x.auth && x.busy == Idle && !x.closed && x.count < MAX_TUNNELS && id !in ids
    ensures var y := x.AddHttp(id, name);
            && HandlerOk(y, ids + {id}) && id !in x.HttpHeld()
            && y.HttpHeld() == x.HttpHeld()[id := name] && y.TlsHeld() == x.TlsHeld()
    ensures var y := x.AddTls(id, name);
            && HandlerOk(y, ids + {id}) && id !in x.TlsHeld()
            && y.TlsHeld() == x.TlsHeld()[id := name] && y.HttpHeld() == x.HttpHeld()
  {
    CountAdd(x.http, id, name);
    CountAdd(x.tls, id, name);
  }

  lemma {:induction false} HandlerDrops(x: Handler, ids: set<Id>, id: Id)
    requires HandlerOk(x, ids) && x.auth && x.busy == Idle && !x.closed && id in x.http
    ensures var y := x.DropHttp(id);
            HandlerOk(y, ids) && y.HttpHeld() == x.HttpHeld() && y.TlsHeld() == x.TlsHeld()
  {
    CountDrop(x.http, id);
  }

  lemma {:induction false} HttpKeeps(cfg: Config, w: World, h: Client, requested: Bytes, generated: Bytes, id: Id)
    requires Inv(cfg, w) && !cfg.late && RegisterHttp(cfg, w, h, requested, generated, id).Some?
    ensures Inv(cfg, RegisterHttp(cfg, w, h, requested, generated, id).value)
  {
    var x, name := w.hs[h], NameFor(requested, generated);
    NameOk(requested, generated);
    OneHandler(cfg, w, h);
    HandlerAdds(x, w.ids, id, name);
    hide Inv, Generated, ValidSubdomain, HandlerOk, PublicURL, Handler.HttpHeld, Handler.TlsHeld, Handler.AddHttp,
         Handler.AddTls;
    HttpAdded(cfg, w, h, x.AddHttp(id, name), id, name, w.ids + {id});
  }

  lemma {:induction false} TlsKeeps(cfg: Config, w: World, h: Client, requested: Bytes, generated: Bytes, id: Id)
    requires Inv(cfg, w) && !cfg.late && RegisterTls(cfg, w, h, requested, generated, id).Some?
    ensures Inv(cfg, RegisterTls(cfg, w, h, requested, generated, id).value)
  {
    var x, name := w.hs[h], NameFor(requested, generated);
    NameOk(requested, generated);
    OneHandler(cfg, w, h);
    HandlerAdds(x, w.ids, id, name);
    hide Inv, Generated, ValidSubdomain, HandlerOk, PublicURL, Handler.HttpHeld, Handler.TlsHeld, Handler.AddHttp,
         Handler.AddTls;
    TlsAdded(cfg, w, h, x.AddTls(id, name), id, name, w.ids + {id});
  }

  lemma {:induction false} UnregisterKeeps(cfg: Config, w: World, h: Client, id: Id)
    requires Inv(cfg, w) && !cfg.late && Unregister(cfg, w, h, id).Some?
    ensures Inv(cfg, Unregister(cfg, w, h, id).value)
  {
    var x := w.hs[h];
    OneHandler(cfg, w, h);
    HandlerDrops(x, w.ids, id);
    hide Inv, HandlerOk, PoolOk, Handler.HttpHeld, Handler.TlsHeld, Handler.DropHttp;
    Quiet(cfg, w, h, x.DropHttp(id), w.pool, w.ids);
  }

  lemma {:induction false} HandlerIdles(x: Handler, ids: set<Id>)
    requires HandlerOk(x, ids) && !x.closed
    requires x.busy.Dropping? || x.busy.Holding? || x.busy.Announcing? || x.busy.Asking?
    ensures HandlerOk(x.(busy := Idle), ids) && x.(busy := Idle).TlsHeld() == x.TlsHeld()
    ensures !x.busy.Dropping? ==> x.(busy := Idle).HttpHeld() == x.HttpHeld()
    ensures x.busy.Dropping? ==>
              && x.busy.id in x.HttpHeld() && x.HttpHeld()[x.busy.id] == x.busy.name
              && x.(busy := Idle).HttpHeld() == x.HttpHeld() - {x.busy.id}
  {
  }

  lemma {:induction false} UnregisteredKeeps(cfg: Config, w: World, h: Client)
    requires Inv(cfg, w) && Unregistered(w, h).Some?
    ensures Inv(cfg, Unregistered(w, h).value)
  {
    var x := w.hs[h];
    OneHandler(cfg, w, h);
    HandlerIdles(x, w.ids);
    hide Inv, HandlerOk, PoolOk, Handler.HttpHeld, Handler.TlsHeld;
    HttpDropped(cfg, w, h, x.(busy := Idle), x.busy.id);
  }

  lemma {:induction false} AskKeeps(cfg: Config, w: World, h: Client, preferred: u16)
    requires Inv(cfg, w) && !cfg.late && AskPort(cfg, w, h, preferred).Some?
    ensures Inv(cfg, AskPort(cfg, w, h, preferred).value)
  {
    OneHandler(cfg, w, h);
    hide Inv;
    Quiet(cfg, w, h, w.hs[h].(busy := Asking(preferred)), w.pool, w.ids);
  }

  lemma {:induction false} TakeKeeps(cfg: Config, w: World, h: Client)
    requires Inv(cfg, w) && TakePort(w, h).Some?
    ensures Inv(cfg, TakePort(w, h).value)
  {
    var x := w.hs[h];
    OneHandler(cfg, w, h);
    hide Inv;
    var (r, pool) := w.pool.Allocate(x.busy.preferred);
    Quiet(cfg, w, h, x.(busy := if r.Some? then Holding(r.value) else Idle), pool, w.ids);
  }

  lemma {:induction false} HandlerListens(x: Handler, ids: set<Id>, id: Id)
    requires HandlerOk(x, ids) && x.busy.Holding? && id !in ids
    ensures var y := x.AddTcp(id, x.busy.port);
            HandlerOk(y, ids + {id}) && y.HttpHeld() == x.HttpHeld() && y.TlsHeld() == x.TlsHeld()
  {
    CountAdd(x.tcp, id, x.busy.port);
  }

  lemma {:induction false} ReleaseOk(cfg: Config, pool: Ports.Pool, p: u16)
    requires PoolOk(cfg, pool)
    ensures PoolOk(cfg, pool.Release(p))
  {
  }

  lemma {:induction false} ListenKeeps(cfg: Config, w: World, h: Client, ok: bool, id: Id)
    requires Inv(cfg, w) && Listen(w, h, ok, id).Some?
    ensures Inv(cfg, Listen(w, h, ok, id).value)
  {
    var x := w.hs[h];
    OneHandler(cfg, w, h);
    ReleaseOk(cfg, w.pool, x.busy.port);
    HandlerListens(x, w.ids, id);
    HandlerIdles(x, w.ids);
    hide Inv, HandlerOk, Handler.HttpHeld, Handler.TlsHeld, Handler.AddTcp, PoolOk, Ports.Pool.Release;
    Quiet(cfg, w, h, x.AddTcp(id, x.busy.port), w.pool, w.ids + {id});
    Quiet(cfg, w, h, x.(busy := Idle), w.pool.Release(x.busy.port), w.ids);
  }

  lemma {:induction false} AnnounceKeeps(cfg: Config, w: World, h: Client)
    requires Inv(cfg, w) && Announce(cfg, w, h).Some?
    ensures Inv(cfg, Announce(cfg, w, h).value)
  {
    var x := w.hs[h];
    OneHandler(cfg, w, h);
    HandlerIdles(x, w.ids);
    ReleaseOk(cfg, w.pool, x.tcp[x.busy.id]);
    hide Inv, HandlerOk, TcpURL, Wire.EncodeRegisterOK, Handler.HttpHeld, Handler.TlsHeld, PoolOk, Ports.Pool.Release;
    Quiet(cfg, w, h, x.(busy := Idle), w.pool, w.ids);
    Quiet(cfg, w, h, x.(busy := Idle), w.pool.Release(x.tcp[x.busy.id]), w.ids);
  }

  lemma {:induction false} HandlerCleans(x: Handler, ids: set<Id>)
    requires HandlerOk(x, ids) && x.busy == Idle && !x.closed
    ensures var y := x.(busy := Cleaning(x.http.Keys, x.tcp.Keys, x.tls.Keys));
            HandlerOk(y, ids) && y.HttpHeld() == x.HttpHeld() && y.TlsHeld() == x.TlsHeld()
  {
    assert Only(x.http, x.http.Keys) == x.http && Only(x.tls, x.tls.Keys) == x.tls;
  }

  lemma {:induction false} CleanStartKeeps(cfg: Config, w: World, h: Client)
    requires Inv(cfg, w) && CleanStart(w, h).Some?
    ensures Inv(cfg, CleanStart(w, h).value)
  {
    var x := w.hs[h];
    OneHandler(cfg, w, h);
    HandlerCleans(x, w.ids);
    hide Inv, HandlerOk, PoolOk, Handler.HttpHeld, Handler.TlsHeld;
    Quiet(cfg, w, h, x.(busy := Cleaning(x.http.Keys, x.tcp.Keys, x.tls.Keys)), w.pool, w.ids);
  }

  lemma {:induction false} OnlyLess<V>(m: map<Id, V>, left: set<Id>, id: Id)
    ensures Only(m, left - {id}) == Only(m, left) - {id}
    ensures Only(m, {}) == map[]
  {
  }

  lemma {:induction false} HandlerCleanedNames(x: Handler, ids: set<Id>, id: Id)
    requires HandlerOk(x, ids) && x.busy.Cleaning?
    ensures var y := x.(busy := x.busy.(httpLeft := x.busy.httpLeft - {id}));
            HandlerOk(y, ids) && y.HttpHeld() == x.HttpHeld() - {id} && y.TlsHeld() == x.TlsHeld()
    ensures id in x.busy.httpLeft && id in x.http ==> id in x.HttpHeld() && x.HttpHeld()[id] == x.http[id]
  {
    OnlyLess(x.http, x.busy.httpLeft, id);
  }

  lemma {:induction false} HandlerCleanedTls(x: Handler, ids: set<Id>, id: Id)
    requires HandlerOk(x, ids) && x.busy.Cleaning?
    ensures var y := x.(busy := x.busy.(tlsLeft := x.busy.tlsLeft - {id}));
            HandlerOk(y, ids) && y.TlsHeld() == x.TlsHeld() - {id} && y.HttpHeld() == x.HttpHeld()
    ensures id in x.busy.tlsLeft && id in x.tls ==> id in x.TlsHeld() && x.TlsHeld()[id] == x.tls[id]
  {
    OnlyLess(x.tls, x.busy.tlsLeft, id);
  }

  lemma {:induction false} HandlerCleanedTcp(x: Handler, ids: set<Id>, id: Id)
    requires HandlerOk(x, ids) && x.busy.Cleaning?
    ensures var y := x.(busy := x.busy.(tcpLeft := x.busy.tcpLeft - {id}));
            HandlerOk(y, ids) && y.HttpHeld() == x.HttpHeld() && y.TlsHeld() == x.TlsHeld()
  {
    hide Only;
  }

  lemma {:induction false} CleanHttpKeeps(cfg: Config, w: World, h: Client, id: Id)
    requires Inv(cfg, w) && CleanHttp(w, h, id).Some?
    ensures Inv(cfg, CleanHttp(w, h, id).value)
  {
    var x := w.hs[h];
    OneHandler(cfg, w, h);
    HandlerCleanedNames(x, w.ids, id);
    hide Inv, HandlerOk, PoolOk, Handler.HttpHeld, Handler.TlsHeld;
    HttpDropped(cfg, w, h, x.(busy := x.busy.(httpLeft := x.busy.httpLeft - {id})), id);
  }

  lemma {:induction false} CleanTlsKeeps(cfg: Config, w: World, h: Client, id: Id)
    requires Inv(cfg, w) && CleanTls(w, h, id).Some?
    ensures Inv(cfg, CleanTls(w, h, id).value)
  {
    var x := w.hs[h];
    OneHandler(cfg, w, h);
    HandlerCleanedTls(x, w.ids, id);
    hide Inv, HandlerOk, PoolOk, Handler.HttpHeld, Handler.TlsHeld;
    TlsDropped(cfg, w, h, x.(busy := x.busy.(tlsLeft := x.busy.tlsLeft - {id})), id);
  }

  lemma {:induction false} CleanTcpKeeps(cfg: Config, w: World, h: Client, id: Id)
    requires Inv(cfg, w) && CleanTcp(w, h, id).Some?
    ensures Inv(cfg, CleanTcp(w, h, id).value)
  {
    var x := w.hs[h];
    OneHandler(cfg, w, h);
    HandlerCleanedTcp(x, w.ids, id);
    hide Inv, HandlerOk, Handler.HttpHeld, Handler.TlsHeld;
    Quiet(cfg, w, h, x.(busy := x.busy.(tcpLeft := x.busy.tcpLeft - {id})), w.pool.Release(x.tcp[id]), w.ids);
  }

  lemma {:induction false} HandlerCloses(x: Handler, ids: set<Id>)
    requires HandlerOk(x, ids) && x.busy == Cleaning({}, {}, {})
    ensures var y := x.(busy := Idle, closed := true);
            HandlerOk(y, ids) && y.HttpHeld() == x.HttpHeld() && y.TlsHeld() == x.TlsHeld()
  {
    OnlyLess(x.http, {}, 0);
    OnlyLess(x.tls, {}, 0);
  }

  lemma {:induction false} CleanEndKeeps(cfg: Config, w: World, h: Client)
    requires Inv(cfg, w) && CleanEnd(w, h).Some?
    ensures Inv(cfg, CleanEnd(w, h).value)
  {
    var x := w.hs[h];
    OneHandler(cfg, w, h);
    HandlerCloses(x, w.ids);
    hide Inv, HandlerOk, PoolOk, Handler.HttpHeld, Handler.TlsHeld;
    Quiet(cfg, w, h, x.(busy := Idle, closed := true), w.pool, w.ids);
  }

  lemma {:induction false} SshKeeps(cfg: Config, w: World, c: Conn, port: nat, ok: bool, p: u16)
    requires Inv(cfg, w)
    ensures SshConnect(w, c).Some? ==> Inv(cfg, SshConnect(w, c).value)
    ensures SshAsk(w, c, port).Some? ==> Inv(cfg, SshAsk(w, c, port).value)
    ensures SshListen(w, c, ok).Some? ==> Inv(cfg, SshListen(w, c, ok).value)
    ensures SshCancel(w, c, port).Some? ==> Inv(cfg, SshCancel(w, c, port).value)
    ensures SshEnd(w, c).Some? ==> Inv(cfg, SshEnd(w, c).value)
    ensures SshDrop(w, c, p).Some? ==> Inv(cfg, SshDrop(w, c, p).value)
  {
    hide HandlersOk, SideOk, HttpSide, TlsSide;
  }

  lemma {:induction false} StepKeeps(cfg: Config, w: World, a: Act)
    requires Inv(cfg, w) && !cfg.late && Step(cfg, w, a).Some?
    ensures Inv(cfg, Step(cfg, w, a).value)
  {
    hide Inv, Connect, Authenticate, RegisterHttp, RegisterTls, Unregister, Unregistered, AskPort, TakePort, Listen,
         Announce,
         CleanStart, CleanHttp, CleanTcp, CleanTls, CleanEnd, SshConnect, SshAsk, SshListen, SshCancel, SshEnd, SshDrop;
    match a
    case AConnect(h) => ConnectKeeps(cfg, w, h);
    case AAuth(h) => AuthKeeps(cfg, w, h);
    case AHttp(h, requested, generated, id) => HttpKeeps(cfg, w, h, requested, generated, id);
    case ATls(h, requested, generated, id) => TlsKeeps(cfg, w, h, requested, generated, id);
    case AUnregister(h, id) => UnregisterKeeps(cfg, w, h, id);
    case AUnregistered(h) => UnregisteredKeeps(cfg, w, h);
    case AAsk(h, preferred) => AskKeeps(cfg, w, h, preferred);
    case ATake(h) => TakeKeeps(cfg, w, h);
    case AListen(h, ok, id) => ListenKeeps(cfg, w, h, ok, id);
    case AAnnounce(h) => AnnounceKeeps(cfg, w, h);
    case ACleanStart(h) => CleanStartKeeps(cfg, w, h);
    case ACleanHttp(h, id) => CleanHttpKeeps(cfg, w, h, id);
    case ACleanTcp(h, id) => CleanTcpKeeps(cfg, w, h, id);
    case ACleanTls(h, id) => CleanTlsKeeps(cfg, w, h, id);
    case ACleanEnd(h) => CleanEndKeeps(cfg, w, h);
    case ASshConnect(c) => SshKeeps(cfg, w, c, 0, true, 0);
    case ASshAsk(c, port) => SshKeeps(cfg, w, c, port, true, 0);
    case ASshListen(c, ok) => SshKeeps(cfg, w, c, 0, ok, 0);
    case ASshCancel(c, port) => SshKeeps(cfg, w, c, port, true, 0);
    case ASshEnd(c) => SshKeeps(cfg, w, c, 0, true, 0);
    case ASshDrop(c, p) => SshKeeps(cfg, w, c, 0, true, p);
  }

  // ---- Every run --------------------------------------------------------

  lemma {:induction false} RunInv(cfg: Config, ws: seq<World>, acts: seq<Act>, i: nat)
    requires Run(cfg, ws, acts) && i < |ws| && !cfg.late
    ensures Inv(cfg, ws[i])
  {
    hide Step, Inv;
    if i == 0 {
      StartInv(cfg);
    } else {
      RunInv(cfg, ws, acts, i - 1);
      assert Step(cfg, ws[i - 1], acts[i - 1]) == Some(ws[i - 1 + 1]);
      StepKeeps(cfg, ws[i - 1], acts[i - 1]);
    }
  }

  lemma {:induction false} ReachableInv(cfg: Config, w: World)
    requires Reachable(cfg, w) && !cfg.late
    ensures Inv(cfg, w)
  {
    hide Step, Inv;
    var ws, acts :| Run(cfg, ws, acts) && ws[|acts|] == w;
    RunInv(cfg, ws, acts, |acts|);
  }

  lemma {:induction false} Reaches(cfg: Config, w: World, a: Act, n: World)
    requires Reachable(cfg, w) && Step(cfg, w, a) == Some(n)
    ensures Reachable(cfg, n)
  {
    hide Step;
    var ws, acts :| Run(cfg, ws, acts) && ws[|acts|] == w;
    var ws', acts' := ws + [n], acts + [a];
    forall i | 0 <= i < |acts'| ensures Step(cfg, ws'[i], acts'[i]) == Some(ws'[i + 1]) {
      if i < |acts| {
        assert ws'[i] == ws[i] && ws'[i + 1] == ws[i + 1] && acts'[i] == acts[i];
      }
    }
    assert Run(cfg, ws', acts') && ws'[|acts'|] == n;
  }

  /** The handler holds the tunnel: in its table, on the way out of the registry, or still to
      be undone by its cleanup. */
  ghost predicate HoldsHttp(w: World, h: Client, id: Id, name: Bytes) {
    h in w.hs && id in w.hs[h].HttpHeld() && w.hs[h].HttpHeld()[id] == name
  }

  ghost predicate HoldsTls(w: World, h: Client, id: Id, name: Bytes) {
    h in w.hs && id in w.hs[h].TlsHeld() && w.hs[h].TlsHeld()[id] == name
  }

  /** A registry entry exists if and only if its handler holds that tunnel; so no name has two
      owners. */
  lemma {:induction false} EntryIffHeld(cfg: Config, w: World, h: Client, id: Id, name: Bytes)
    requires Reachable(cfg, w) && !cfg.late
    ensures HoldsHttp(w, h, id, name) <==> name in w.http && w.http[name] == Entry(id, h)
    ensures HoldsTls(w, h, id, name) <==> name in w.tls && w.tls[name] == Entry(id, h)
  {
    ReachableInv(cfg, w);
    BalancedIff(w.http, HttpSide(w.hs), name, id, h);
    BalancedIff(w.tls, TlsSide(w.hs), name, id, h);
    hide Reachable, Balanced, HandlersOk, NamesOk, Handler.HttpHeld, Handler.TlsHeld;
  }

  lemma {:induction false} OneOwner(cfg: Config, w: World, h: Client, id: Id, h': Client, id': Id, name: Bytes)
    requires Reachable(cfg, w) && !cfg.late
    requires (HoldsHttp(w, h, id, name) && HoldsHttp(w, h', id', name))
             || (HoldsTls(w, h, id, name) && HoldsTls(w, h', id', name))
    ensures h == h' && id == id'
  {
    hide Reachable, HoldsHttp, HoldsTls;
    EntryIffHeld(cfg, w, h, id, name);
    EntryIffHeld(cfg, w, h', id', name);
  }

  /** The tunnel count is the size of the three tables, and never above the limit; a client
      that has not authenticated owns nothing. */
  lemma {:induction false} CountIsSum(cfg: Config, w: World, h: Client)
    requires Reachable(cfg, w) && !cfg.late && h in w.hs
    ensures var x := w.hs[h];
            && x.count == |x.http| + |x.tls| + |x.tcp| <= MAX_TUNNELS
            && (!x.auth ==> x.http == map[] && x.tls == map[] && x.tcp == map[])
  {
    ReachableInv(cfg, w);
    OneHandler(cfg, w, h);
    hide Reachable, Inv;
  }

  /** After a handler's cleanup neither registry has an entry of it. */
  lemma {:induction false} CleanupLeavesNothing(cfg: Config, w: World, h: Client)
    requires Reachable(cfg, w) && !cfg.late && h in w.hs && w.hs[h].closed
    ensures forall name :: name in w.http ==> w.http[name].owner != h
    ensures forall name :: name in w.tls ==> w.tls[name].owner != h
  {
    ReachableInv(cfg, w);
    NothingHeld(w.http, HttpSide(w.hs), h);
    NothingHeld(w.tls, TlsSide(w.hs), h);
    hide Reachable, Balanced, HandlersOk, NamesOk;
  }

  /** The registry lookup of a request's host, as ServeHTTP and the SNI router make it. */
  ghost function Lookup(cfg: Config, names: Names, host: Bytes): Option<Entry<Id, Client>> {
    var name := ExtractSubdomain(host, cfg.base);
    if name != [] && name in names then Some(names[name]) else None
  }

  /** A tunnel's own public URL, with or without a port, leads to that tunnel and client. */
  lemma {:induction false} OwnURLRoutes(cfg: Config, w: World, h: Client, id: Id, name: Bytes, port: Bytes)
    requires Reachable(cfg, w) && !cfg.late
    ensures HoldsHttp(w, h, id, name) ==>
              && Lookup(cfg, w.http, PublicURL(name, cfg.base)) == Some(Entry(id, h))
              && Lookup(cfg, w.http, PublicURL(name, StripPort(cfg.base)) + [COLON] + port) == Some(Entry(id, h))
    ensures HoldsTls(w, h, id, name) ==> Lookup(cfg, w.tls, PublicURL(name, StripPort(cfg.base))) == Some(Entry(id, h))
  {
    EntryIffHeld(cfg, w, h, id, name);
    ReachableInv(cfg, w);
    if name in w.http || name in w.tls {
      assert name != [] && ValidSubdomain(name);
      OwnURL(name, cfg.base, port);
    }
    hide Reachable, Inv, HoldsHttp, HoldsTls, ExtractSubdomain, PublicURL, StripPort;
  }

  // ---- Frames after cleanup ---------------------------------------------

  /** Entries and holdings agree exactly, in both registries. */
  ghost predicate Owned(w: World) {
    forall h: Client, id: Id, name: Bytes ::
      && (HoldsHttp(w, h, id, name) <==> name in w.http && w.http[name] == Entry(id, h))
      && (HoldsTls(w, h, id, name) <==> name in w.tls && w.tls[name] == Entry(id, h))
  }

  /** The shortest public URL, that of a one-letter name, is not too long: otherwise no name
      can be registered at all. */
  ghost predicate Registrable(cfg: Config) { |cfg.base| + 2 <= MAX_URL }

  const LETTER: Bytes := [0x61]

  function Finished(): Handler { NEW_HANDLER.(auth := true, closed := true) }

  lemma {:induction false} OneClient(cfg: Config, w: World, x: Handler, y: Handler, a: Act)
    requires Reachable(cfg, w) && w == Start(cfg).(hs := map[0 := x])
    requires Step(cfg, w, a) == Some(w.(hs := w.hs[0 := y]))
    ensures Reachable(cfg, Start(cfg).(hs := map[0 := y]))
  {
    assert w.hs[0 := y] == map[0 := y];
    hide Step, Reachable;
    Reaches(cfg, w, a, w.(hs := w.hs[0 := y]));
  }

  /** A client connects, authenticates and leaves. */
  lemma {:induction false} ClientLeaves(cfg: Config)
    ensures Reachable(cfg, Start(cfg).(hs := map[0 := Finished()]))
  {
    var w := Start(cfg);
    var ws, acts: seq<Act> := [w], [];
    assert Run(cfg, ws, acts) && ws[|acts|] == w;
    assert Reachable(cfg, w);
    hide Reachable;
    var x := NEW_HANDLER;
    var w1 := w.(hs := map[0 := x]);
    assert w.hs[0 := x] == w1.hs;
    Reaches(cfg, w, AConnect(0), w1);
    var y := x.(auth := true);
    OneClient(cfg, w1, x, y, AAuth(0));
    var z := y.(busy := Cleaning({}, {}, {}));
    assert y.http.Keys == {} && y.tls.Keys == {} && y.tcp.Keys == {};
    OneClient(cfg, w.(hs := map[0 := y]), y, z, ACleanStart(0));
    OneClient(cfg, w.(hs := map[0 := z]), z, Finished(), ACleanEnd(0));
  }

  /** Its next frame registers a name that no cleanup will ever give back. */
  lemma {:induction false} LateFrameLeaks(cfg: Config) returns (w: World)
    requires cfg.late && Registrable(cfg)
    ensures Reachable(cfg, w) && 0 in w.hs && w.hs[0].closed && LETTER in w.http && w.http[LETTER] == Entry(0, 0)
    ensures forall a: Act :: (a.ACleanStart? || a.ACleanHttp?) && a.h == 0 ==> Step(cfg, w, a).None?
    ensures !HoldsHttp(w, 0, 0, LETTER)
  {
    ClientLeaves(cfg);
    hide Reachable;
    var v := Start(cfg).(hs := map[0 := Finished()]);
    var generated: Bytes := seq(16, _ => 0x30);
    w := AddHttp(v, 0, LETTER, 0);
    Reaches(cfg, v, AHttp(0, LETTER, generated, 0), w);
  }

  lemma {:induction false} ReachableOwned(cfg: Config, w: World)
    requires Reachable(cfg, w) && !cfg.late
    ensures Owned(w)
  {
    hide Reachable, HoldsHttp, HoldsTls;
    forall h: Client, id: Id, name: Bytes
      ensures HoldsHttp(w, h, id, name) <==> name in w.http && w.http[name] == Entry(id, h)
      ensures HoldsTls(w, h, id, name) <==> name in w.tls && w.tls[name] == Entry(id, h)
    {
      EntryIffHeld(cfg, w, h, id, name);
    }
  }

  /** Without registrations there is nothing to own. */
  ghost predicate Nameless(w: World) {
    && w.http == map[] && w.tls == map[]
    && forall h :: h in w.hs ==> w.hs[h].http == map[] && w.hs[h].tls == map[] && !w.hs[h].busy.Dropping?
  }

  predicate IsSsh(a: Act) {
    a.ASshConnect? || a.ASshAsk? || a.ASshListen? || a.ASshCancel? || a.ASshEnd? || a.ASshDrop?
  }

  lemma {:induction false} SshNameless(cfg: Config, w: World, a: Act)
    requires Nameless(w) && IsSsh(a) && Step(cfg, w, a).Some?
    ensures Nameless(Step(cfg, w, a).value)
  {
    hide Ports.Pool.Allocate, Ports.Pool.Release;
  }

  lemma {:induction false} StepNameless(cfg: Config, w: World, a: Act)
    requires Nameless(w) && !Registrable(cfg) && Step(cfg, w, a).Some?
    ensures Nameless(Step(cfg, w, a).value)
  {
    hide Ports.Pool.Allocate, Ports.Pool.Release, Wire.EncodeRegisterOK, TcpURL, ValidSubdomain, SshConnect, SshAsk,
         SshListen, SshCancel, SshEnd, SshDrop;
    if IsSsh(a) {
      SshNameless(cfg, w, a);
      hide Nameless;
    }
  }

  lemma {:induction false} RunNameless(cfg: Config, ws: seq<World>, acts: seq<Act>, i: nat)
    requires Run(cfg, ws, acts) && !Registrable(cfg) && i < |ws|
    ensures Nameless(ws[i])
  {
    hide Step, Registrable;
    if i == 0 {
    } else {
      RunNameless(cfg, ws, acts, i - 1);
      assert Step(cfg, ws[i - 1], acts[i - 1]) == Some(ws[i - 1 + 1]);
      StepNameless(cfg, ws[i - 1], acts[i - 1]);
    }
  }

  lemma {:induction false} NamelessOwned(w: World)
    requires Nameless(w)
    ensures Owned(w)
  {
    assert forall h :: h in w.hs ==> w.hs[h].HttpHeld() == map[] && w.hs[h].TlsHeld() == map[];
  }

  /** Every reachable state has an entry exactly where a handler holds the tunnel, if and only
      if no frame is handled after cleanup, or no name can be registered in the first place. */
  lemma {:induction false} OwnedIff(cfg: Config)
    ensures (forall w :: Reachable(cfg, w) ==> Owned(w)) <==> !cfg.late || !Registrable(cfg)
  {
    hide Registrable, Step, Nameless, HoldsHttp, HoldsTls;
    if !cfg.late {
      forall w | Reachable(cfg, w) ensures Owned(w) {
        ReachableOwned(cfg, w);
      }
    } else if !Registrable(cfg) {
      forall w | Reachable(cfg, w) ensures Owned(w) {
        var ws, acts :| Run(cfg, ws, acts) && ws[|acts|] == w;
        RunNameless(cfg, ws, acts, |acts|);
        NamelessOwned(w);
      }
    } else {
      var w := LateFrameLeaks(cfg);
      assert !Owned(w);
    }
  }
}
