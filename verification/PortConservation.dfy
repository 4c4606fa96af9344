/**
 Public ports over every run: the ports in use are exactly the ports held, each by one
 holder, in all runs if and only if every public TCP address fits in its announcement.
 */
module PortConservation {
  import opened Basics
  import opened Book
  import opened Subdomain
  import opened Ownership
  import opened Conservation
  import Ports = PortAllocator
  import Wire = FrameCodec

  lemma {:induction false} AgentSideSet(hs: map<Client, Handler>, h: Client, x: Handler)
    ensures AgentSide(hs[h := x]) == AgentSide(hs)[Agent(h) := x.PortsHeld()]
  {
    var a, b := AgentSide(hs[h := x]), AgentSide(hs)[Agent(h) := x.PortsHeld()];
    forall k | k in a.Keys + b.Keys ensures k in a && k in b && a[k] == b[k] {
      assert k.Agent?;
    }
  }

  lemma {:induction false} SshSideSet(ss: map<Conn, Ssh>, c: Conn, x: Ssh)
    ensures SshSide(ss[c := x]) == SshSide(ss)[SshPeer(c) := x.PortsHeld()]
  {
    var a, b := SshSide(ss[c := x]), SshSide(ss)[SshPeer(c) := x.PortsHeld()];
    forall k | k in a.Keys + b.Keys ensures k in a && k in b && a[k] == b[k] {
      assert k.SshPeer?;
    }
  }

  lemma {:induction false} NoAgents(ss: map<Conn, Ssh>, h: Client)
    ensures Agent(h) !in SshSide(ss)
  {
  }

  lemma {:induction false} MergeSet<K, V>(a: map<K, V>, b: map<K, V>, k: K, v: V)
    requires k !in b
    ensures a[k := v] + b == (a + b)[k := v]
  {
  }

  lemma {:induction false} PortSideSet(hs: map<Client, Handler>, ss: map<Conn, Ssh>, h: Client, x: Handler)
    ensures PortSide(hs[h := x], ss) == PortSide(hs, ss)[Agent(h) := x.PortsHeld()]
  {
    AgentSideSet(hs, h, x);
    NoAgents(ss, h);
    hide AgentSide, SshSide;
    MergeSet(AgentSide(hs), SshSide(ss), Agent(h), x.PortsHeld());
  }

  lemma {:induction false} PortSideSsh(hs: map<Client, Handler>, ss: map<Conn, Ssh>, c: Conn, x: Ssh)
    ensures PortSide(hs, ss[c := x]) == PortSide(hs, ss)[SshPeer(c) := x.PortsHeld()]
  {
    SshSideSet(ss, c, x);
    hide AgentSide, SshSide;
  }

  // ---- The ports in use and the ports held ------------------------------

  type Holdings = map<Party, map<Slot, u16>>

  function With(m: map<Slot, u16>, s: Slot, p: u16): map<Slot, u16> { m[s := p] }

  lemma {:induction false} PortAdds(used: set<u16>, held: Holdings, o: Party, s: Slot, p: u16)
    requires PortsOk(used, held) && o in held && s !in held[o] && p !in used
    ensures PortsOk(used + {p}, held[o := With(held[o], s, p)])
  {
    var book: map<u16, Entry<Slot, Party>> :| book.Keys == used && Balanced(book, held);
    Adds(book, held, o, s, p);
    assert book[p := Entry(s, o)].Keys == used + {p};
    hide Balanced;
  }

  lemma {:induction false} PortDrops(used: set<u16>, held: Holdings, o: Party, s: Slot)
    requires PortsOk(used, held) && o in held && s in held[o]
    ensures PortsOk(used - {held[o][s]}, held[o := held[o] - {s}])
  {
    var book: map<u16, Entry<Slot, Party>> :| book.Keys == used && Balanced(book, held);
    Drops(book, held, o, s);
    assert (book - {held[o][s]}).Keys == used - {held[o][s]};
    hide Balanced;
  }

  lemma {:induction false} PortMoves(used: set<u16>, held: Holdings, o: Party, s: Slot, t: Slot)
    requires PortsOk(used, held) && o in held && s in held[o] && t !in held[o]
    ensures PortsOk(used, held[o := With(held[o] - {s}, t, held[o][s])])
  {
    var book: map<u16, Entry<Slot, Party>> :| book.Keys == used && Balanced(book, held);
    Moves(book, held, o, s, t);
    assert held[o][s] in book;
    assert book[held[o][s] := Entry(t, o)].Keys == used;
    hide Balanced;
  }

  lemma {:induction false} PortJoins(used: set<u16>, held: Holdings, o: Party)
    requires PortsOk(used, held) && o !in held
    ensures PortsOk(used, held[o := map[]])
  {
    var book: map<u16, Entry<Slot, Party>> :| book.Keys == used && Balanced(book, held);
    Joins(book, held, o);
    hide Balanced;
  }

  /** Each port in use has exactly one holder, and a held port is in use. */
  lemma {:induction false} PortFacts(used: set<u16>, held: Holdings, o: Party, s: Slot, p: u16)
    requires PortsOk(used, held)
    ensures p in used <==> exists o', s' :: o' in held && s' in held[o'] && held[o'][s'] == p
    ensures forall o', s' ::
              o in held && s in held[o] && o' in held && s' in held[o'] && held[o][s] == held[o'][s'] ==>
                o == o' && s == s'
  {
    var book: map<u16, Entry<Slot, Party>> :| book.Keys == used && Balanced(book, held);
    BalancedIff(book, held, p, s, o);
    if o in held && s in held[o] {
      assert book[held[o][s]] == Entry(s, o);
    }
  }

  ghost function Held(w: World): Holdings { PortSide(w.hs, w.ss) }

  lemma {:induction false} AgentLooked(w: World, h: Client)
    ensures h in w.hs <==> Agent(h) in Held(w)
    ensures h in w.hs ==>
              && Held(w)[Agent(h)] == w.hs[h].PortsHeld()
              && Held(w)[Agent(h) := w.hs[h].PortsHeld()] == Held(w)
  {
    NoAgents(w.ss, h);
    assert h in w.hs <==> Agent(h) in AgentSide(w.hs);
    hide SshSide;
  }

  lemma {:induction false} SshLooked(w: World, c: Conn)
    ensures c in w.ss <==> SshPeer(c) in Held(w)
    ensures c in w.ss ==>
              && Held(w)[SshPeer(c)] == w.ss[c].PortsHeld()
              && Held(w)[SshPeer(c) := w.ss[c].PortsHeld()] == Held(w)
  {
    assert SshPeer(c) !in AgentSide(w.hs);
    assert c in w.ss <==> SshPeer(c) in SshSide(w.ss);
    hide AgentSide;
  }

  /** Every address the server may have to announce fits in its frame. */
  ghost predicate Announceable(cfg: Config) { |cfg.tcpHost| + 1 + |Decimal(cfg.end)| <= MAX_URL }

  lemma {:induction false} DecimalGrows(a: nat, b: nat)
    requires a <= b
    ensures |Decimal(a)| <= |Decimal(b)|
  {
    if b >= 10 && a >= 10 {
      DecimalGrows(a / 10, b / 10);
    }
  }

  lemma {:induction false} AnnounceFits(cfg: Config, p: u16, id: Id)
    requires Announceable(cfg) && cfg.start <= p <= cfg.end
    ensures Wire.EncodeRegisterOK(TcpURL(cfg, p), id).Some?
  {
    DecimalGrows(p, cfg.end);
  }

  lemma {:induction false} Granted(pool: Ports.Pool, preferred: u16)
    requires pool.Valid()
    ensures var (r, after) := pool.Allocate(preferred);
            if r.Some? then r.value !in pool.used && after.used == pool.used + {r.value} else after.used == pool.used
  {
    if preferred == 0 {
      Ports.AutomaticGrant(pool);
    } else {
      Ports.PreferredGrant(pool, preferred);
    }
  }

  // ---- One handler, one connection --------------------------------------

  /** The ports after a handler's step, from what it now holds. */
  ghost predicate Kept(w: World) { PortsOk(w.pool.used, Held(w)) }

  lemma {:induction false} SameHeld(w: World, h: Client, x: Handler, n: World)
    requires Kept(w) && h in w.hs && x.PortsHeld() == w.hs[h].PortsHeld()
    requires n.hs == w.hs[h := x] && n.ss == w.ss && n.pool.used == w.pool.used
    ensures Kept(n)
  {
    PortSideSet(w.hs, w.ss, h, x);
    AgentLooked(w, h);
    hide PortsOk, PortSide;
  }

  lemma {:induction false} TakesOne(w: World, h: Client, x: Handler, s: Slot, p: u16, n: World)
    requires Kept(w) && h in w.hs && s !in w.hs[h].PortsHeld() && p !in w.pool.used
    requires x.PortsHeld() == With(w.hs[h].PortsHeld(), s, p)
    requires n.hs == w.hs[h := x] && n.ss == w.ss && n.pool.used == w.pool.used + {p}
    ensures Kept(n)
  {
    PortSideSet(w.hs, w.ss, h, x);
    AgentLooked(w, h);
    hide PortsOk, PortSide, Handler.PortsHeld;
    PortAdds(w.pool.used, Held(w), Agent(h), s, p);
  }

  lemma {:induction false} GivesOne(w: World, h: Client, x: Handler, s: Slot, n: World)
    requires Kept(w) && h in w.hs && s in w.hs[h].PortsHeld()
    requires x.PortsHeld() == w.hs[h].PortsHeld() - {s}
    requires n.hs == w.hs[h := x] && n.ss == w.ss && n.pool.used == w.pool.used - {w.hs[h].PortsHeld()[s]}
    ensures Kept(n)
  {
    PortSideSet(w.hs, w.ss, h, x);
    AgentLooked(w, h);
    hide PortsOk, PortSide, Handler.PortsHeld;
    PortDrops(w.pool.used, Held(w), Agent(h), s);
  }

  lemma {:induction false} MovesOne(w: World, h: Client, x: Handler, s: Slot, t: Slot, n: World)
    requires Kept(w) && h in w.hs && s in w.hs[h].PortsHeld() && t !in w.hs[h].PortsHeld()
    requires x.PortsHeld() == With(w.hs[h].PortsHeld() - {s}, t, w.hs[h].PortsHeld()[s])
    requires n.hs == w.hs[h := x] && n.ss == w.ss && n.pool.used == w.pool.used
    ensures Kept(n)
  {
    PortSideSet(w.hs, w.ss, h, x);
    AgentLooked(w, h);
    hide PortsOk, PortSide, Handler.PortsHeld;
    PortMoves(w.pool.used, Held(w), Agent(h), s, t);
  }

  // ---- Handlers ---------------------------------------------------------

  /** A party with nothing in its tables holds nothing. */
  lemma {:induction false} NoTunnels(x: Handler)
    requires x.tcp == map[] && x.busy == Idle
    ensures x.PortsHeld() == map[]
  {
    var none: map<Slot, u16> := map[];
    assert Slots(x.tcp) == none by {
      assert forall k :: k !in Slots(x.tcp);
    }
  }

  lemma {:induction false} NoForwards(x: Ssh)
    requires x.forwards == {} && x.underway.None?
    ensures x.PortsHeld() == map[]
  {
    var none: map<Slot, u16> := map[];
    assert x.PortsHeld() == none by {
      assert forall k :: k !in x.PortsHeld();
    }
  }

  lemma {:induction false} ConnectPorts(w: World, h: Client)
    requires Kept(w) && Connect(w, h).Some?
    ensures Kept(Connect(w, h).value)
  {
    hide PortsOk, PortSide, Handler.PortsHeld;
    PortSideSet(w.hs, w.ss, h, NEW_HANDLER);
    AgentLooked(w, h);
    NoTunnels(NEW_HANDLER);
    PortJoins(w.pool.used, Held(w), Agent(h));
  }

  /** Names and the steps of cleanup that concern them do not touch what is held. */
  lemma {:induction false} HeldThrough(x: Handler, id: Id, name: Bytes, p: u16)
    ensures x.busy == Idle ==>
              && x.AddHttp(id, name).PortsHeld() == x.PortsHeld() && x.AddTls(id, name).PortsHeld() == x.PortsHeld()
              && x.(auth := true).PortsHeld() == x.PortsHeld() && x.(busy := Asking(p)).PortsHeld() == x.PortsHeld()
              && (id in x.http ==> x.DropHttp(id).PortsHeld() == x.PortsHeld())
    ensures x.busy.Dropping? || x.busy.Announcing? || x.busy.Asking? ==> x.(busy := Idle).PortsHeld() == x.PortsHeld()
    ensures x.busy.Cleaning? ==>
              && x.(busy := x.busy.(httpLeft := x.busy.httpLeft - {id})).PortsHeld() == x.PortsHeld()
              && x.(busy := x.busy.(tlsLeft := x.busy.tlsLeft - {id})).PortsHeld() == x.PortsHeld()
  {
    hide Slots, SlotsLeft;
  }

  lemma {:induction false} SlotsAll(tcp: map<Id, u16>)
    ensures SlotsLeft(tcp, tcp.Keys) == Slots(tcp) && SlotsLeft(tcp, {}) == map[]
  {
  }

  lemma {:induction false} HeldAround(x: Handler)
    ensures x.busy == Idle && !x.closed ==>
              x.(busy := Cleaning(x.http.Keys, x.tcp.Keys, x.tls.Keys)).PortsHeld() == x.PortsHeld()
    ensures x.busy == Cleaning({}, {}, {}) ==> x.(busy := Idle, closed := true).PortsHeld() == x.PortsHeld()
  {
    hide Slots, SlotsLeft;
    SlotsAll(x.tcp);
  }

  lemma {:induction false} AuthPorts(cfg: Config, w: World, h: Client, preferred: u16)
    requires Kept(w)
    ensures Authenticate(cfg, w, h).Some? ==> Kept(Authenticate(cfg, w, h).value)
    ensures AskPort(cfg, w, h, preferred).Some? ==> Kept(AskPort(cfg, w, h, preferred).value)
  {
    hide Kept;
    if h in w.hs && w.hs[h].busy == Idle {
      var x := w.hs[h];
      HeldThrough(x, 0, [], preferred);
      hide Handler.PortsHeld;
      SameHeld(w, h, x.(auth := true), w.(hs := w.hs[h := x.(auth := true)]));
      SameHeld(w, h, x.(busy := Asking(preferred)), w.(hs := w.hs[h := x.(busy := Asking(preferred))]));
    }
  }

  lemma {:induction false} NamesPorts(cfg: Config, w: World, h: Client, requested: Bytes, generated: Bytes, id: Id)
    requires Kept(w)
    ensures RegisterHttp(cfg, w, h, requested, generated, id).Some? ==>
              Kept(RegisterHttp(cfg, w, h, requested, generated, id).value)
    ensures RegisterTls(cfg, w, h, requested, generated, id).Some? ==>
              Kept(RegisterTls(cfg, w, h, requested, generated, id).value)
  {
    hide Kept, Generated, Grants;
    if h in w.hs && w.hs[h].busy == Idle {
      var x, name := w.hs[h], NameFor(requested, generated);
      HeldThrough(x, id, name, 0);
      hide Handler.PortsHeld, Handler.AddHttp, Handler.AddTls, NameFor;
      var t: Names := w.tls[name := Entry(id, h)];
      SameHeld(w, h, x.AddHttp(id, name), AddHttp(w, h, name, id));
      SameHeld(w, h, x.AddTls(id, name), w.(tls := t, ids := w.ids + {id}, hs := w.hs[h := x.AddTls(id, name)]));
    }
  }

  lemma {:induction false} UnregisterPorts(cfg: Config, w: World, h: Client, id: Id)
    requires Kept(w)
    ensures Unregister(cfg, w, h, id).Some? ==> Kept(Unregister(cfg, w, h, id).value)
    ensures Unregistered(w, h).Some? ==> Kept(Unregistered(w, h).value)
  {
    hide Kept;
    if h in w.hs {
      var x := w.hs[h];
      HeldThrough(x, id, [], 0);
      hide Handler.PortsHeld, Handler.DropHttp;
      if Unregister(cfg, w, h, id).Some? {
        SameHeld(w, h, x.DropHttp(id), Unregister(cfg, w, h, id).value);
      }
      if Unregistered(w, h).Some? {
        SameHeld(w, h, x.(busy := Idle), Unregistered(w, h).value);
      }
    }
  }

  lemma {:induction false} CleanNamesPorts(w: World, h: Client, id: Id)
    requires Kept(w)
    ensures CleanHttp(w, h, id).Some? ==> Kept(CleanHttp(w, h, id).value)
    ensures CleanTls(w, h, id).Some? ==> Kept(CleanTls(w, h, id).value)
  {
    hide Kept;
    if h in w.hs {
      var x := w.hs[h];
      HeldThrough(x, id, [], 0);
      hide Handler.PortsHeld;
      if CleanHttp(w, h, id).Some? {
        SameHeld(w, h, x.(busy := x.busy.(httpLeft := x.busy.httpLeft - {id})), CleanHttp(w, h, id).value);
      }
      if CleanTls(w, h, id).Some? {
        SameHeld(w, h, x.(busy := x.busy.(tlsLeft := x.busy.tlsLeft - {id})), CleanTls(w, h, id).value);
      }
    }
  }

  lemma {:induction false} CleanStartPorts(w: World, h: Client)
    requires Kept(w)
    ensures CleanStart(w, h).Some? ==> Kept(CleanStart(w, h).value)
    ensures CleanEnd(w, h).Some? ==> Kept(CleanEnd(w, h).value)
  {
    hide Kept;
    if h in w.hs {
      var x := w.hs[h];
      HeldAround(x);
      hide Handler.PortsHeld;
      if x.busy == Idle && !x.closed {
        SameHeld(w, h, x.(busy := Cleaning(x.http.Keys, x.tcp.Keys, x.tls.Keys)), CleanStart(w, h).value);
      }
      if x.busy == Cleaning({}, {}, {}) {
        SameHeld(w, h, x.(busy := Idle, closed := true), CleanEnd(w, h).value);
      }
    }
  }

  lemma {:induction false} HeldTaking(x: Handler, p: u16)
    requires x.busy.Asking?
    ensures Underway !in x.PortsHeld() && x.(busy := Holding(p)).PortsHeld() == With(x.PortsHeld(), Underway, p)
  {
  }

  lemma {:induction false} TakePorts(cfg: Config, w: World, h: Client)
    requires Kept(w) && TakePort(w, h).Some? && PoolOk(cfg, w.pool)
    ensures Kept(TakePort(w, h).value)
  {
    var x, n := w.hs[h], TakePort(w, h).value;
    Granted(w.pool, x.busy.preferred);
    var r := w.pool.Allocate(x.busy.preferred).0;
    hide Kept, Ports.Pool.Allocate, Handler.PortsHeld;
    if r.Some? {
      HeldTaking(x, r.value);
      TakesOne(w, h, x.(busy := Holding(r.value)), Underway, r.value, n);
    } else {
      HeldThrough(x, 0, [], 0);
      SameHeld(w, h, x.(busy := Idle), n);
    }
  }

  lemma {:induction false} SlotsAdd(tcp: map<Id, u16>, id: Id, p: u16)
    requires id !in tcp
    ensures Slots(tcp[id := p]) == With(Slots(tcp), Tunnel(id), p) && Tunnel(id) !in Slots(tcp)
    ensures Slots(tcp)[Underway := p] - {Underway} == Slots(tcp)
  {
  }

  lemma {:induction false} SlotsOnly(tcp: map<Id, u16>, left: set<Id>, id: Id)
    ensures SlotsLeft(tcp, left - {id}) == SlotsLeft(tcp, left) - {Tunnel(id)}
    ensures id in left && id in tcp ==>
              Tunnel(id) in SlotsLeft(tcp, left) && SlotsLeft(tcp, left)[Tunnel(id)] == tcp[id]
  {
  }

  lemma {:induction false} HeldListening(x: Handler, id: Id)
    requires x.busy.Holding? && id !in x.tcp && !x.closed
    ensures Underway in x.PortsHeld() && x.PortsHeld()[Underway] == x.busy.port && Tunnel(id) !in x.PortsHeld()
    ensures x.(busy := Idle).PortsHeld() == x.PortsHeld() - {Underway}
    ensures x.AddTcp(id, x.busy.port).PortsHeld() == With(x.PortsHeld() - {Underway}, Tunnel(id), x.busy.port)
  {
    SlotsAdd(x.tcp, id, x.busy.port);
    hide Slots;
  }

  lemma {:induction false} ListenPorts(cfg: Config, w: World, h: Client, ok: bool, id: Id)
    requires Kept(w) && Listen(w, h, ok, id).Some? && Inv(cfg, w)
    ensures Kept(Listen(w, h, ok, id).value)
  {
    var x := w.hs[h];
    OneHandler(cfg, w, h);
    hide Inv;
    HeldListening(x, id);
    hide Kept, HandlerOk, Handler.PortsHeld, Handler.AddTcp;
    if ok {
      MovesOne(w, h, x.AddTcp(id, x.busy.port), Underway, Tunnel(id), Listen(w, h, ok, id).value);
    } else {
      GivesOne(w, h, x.(busy := Idle), Underway, Listen(w, h, ok, id).value);
    }
  }

  lemma {:induction false} HeldCleaning(x: Handler, id: Id)
    requires x.busy.Cleaning? && id in x.busy.tcpLeft && id in x.tcp
    ensures Tunnel(id) in x.PortsHeld() && x.PortsHeld()[Tunnel(id)] == x.tcp[id]
    ensures x.(busy := x.busy.(tcpLeft := x.busy.tcpLeft - {id})).PortsHeld() == x.PortsHeld() - {Tunnel(id)}
  {
    hide Slots, SlotsLeft;
    SlotsOnly(x.tcp, x.busy.tcpLeft, id);
  }

  lemma {:induction false} CleanTcpPorts(w: World, h: Client, id: Id)
    requires Kept(w) && CleanTcp(w, h, id).Some?
    ensures Kept(CleanTcp(w, h, id).value)
  {
    var x := w.hs[h];
    HeldCleaning(x, id);
    hide Kept, Handler.PortsHeld;
    GivesOne(w, h, x.(busy := x.busy.(tcpLeft := x.busy.tcpLeft - {id})), Tunnel(id), CleanTcp(w, h, id).value);
  }

  /** A port a handler holds lies in the range. */
  lemma {:induction false} HeldInRange(cfg: Config, w: World, h: Client, s: Slot)
    requires Kept(w) && PoolOk(cfg, w.pool) && h in w.hs && s in w.hs[h].PortsHeld()
    ensures cfg.start <= w.hs[h].PortsHeld()[s] <= cfg.end
  {
    AgentLooked(w, h);
    PortFacts(w.pool.used, Held(w), Agent(h), s, w.hs[h].PortsHeld()[s]);
    hide PortsOk, PortSide;
    assert Agent(h) in Held(w) && s in Held(w)[Agent(h)];
  }

  lemma {:induction false} HeldAnnouncing(x: Handler, ids: set<Id>)
    requires HandlerOk(x, ids) && x.busy.Announcing?
    ensures Tunnel(x.busy.id) in x.PortsHeld() && x.PortsHeld()[Tunnel(x.busy.id)] == x.tcp[x.busy.id]
    ensures x.(busy := Idle).PortsHeld() == x.PortsHeld()
  {
  }

  lemma {:induction false} AnnouncePorts(cfg: Config, w: World, h: Client)
    requires Kept(w) && Inv(cfg, w) && Announce(cfg, w, h).Some? && Announceable(cfg)
    ensures Kept(Announce(cfg, w, h).value)
  {
    var x := w.hs[h];
    OneHandler(cfg, w, h);
    HeldAnnouncing(x, w.ids);
    hide Inv, HandlerOk, Handler.PortsHeld, Kept, PoolOk;
    HeldInRange(cfg, w, h, Tunnel(x.busy.id));
    AnnounceFits(cfg, x.tcp[x.busy.id], x.busy.id);
    hide Wire.EncodeRegisterOK, TcpURL;
    SameHeld(w, h, x.(busy := Idle), Announce(cfg, w, h).value);
  }

  // ---- SSH connections --------------------------------------------------

  lemma {:induction false} SshHeldAsk(x: Ssh, p: u16)
    requires x.underway.None?
    ensures Underway !in x.PortsHeld() && x.(underway := Some(p)).PortsHeld() == With(x.PortsHeld(), Underway, p)
  {
  }

  lemma {:induction false} SshHeldListen(x: Ssh, p: u16)
    requires x.underway == Some(p)
    ensures Underway in x.PortsHeld() && x.PortsHeld()[Underway] == p
    ensures x.(underway := None).PortsHeld() == x.PortsHeld() - {Underway}
    ensures Forward(p) in x.PortsHeld() ==> x.PortsHeld()[Forward(p)] == p
    ensures x.(forwards := x.forwards + {p}, underway := None).PortsHeld()
              == With(x.PortsHeld() - {Underway}, Forward(p), p)
  {
    var a, b := x.(forwards := x.forwards + {p}, underway := None).PortsHeld(),
                With(x.PortsHeld() - {Underway}, Forward(p), p);
    assert forall k :: k in a ==> k in b && a[k] == b[k];
    assert forall k :: k in b ==> k in a;
  }

  lemma {:induction false} SshHeldDrop(x: Ssh, p: u16)
    requires x.underway.None? && p in x.forwards
    ensures Forward(p) in x.PortsHeld() && x.PortsHeld()[Forward(p)] == p
    ensures x.(forwards := x.forwards - {p}).PortsHeld() == x.PortsHeld() - {Forward(p)}
    ensures x.(ending := true).PortsHeld() == x.PortsHeld()
  {
  }

  lemma {:induction false} SshConnectPorts(w: World, c: Conn)
    requires Kept(w) && SshConnect(w, c).Some?
    ensures Kept(SshConnect(w, c).value)
  {
    hide PortsOk, PortSide, Ssh.PortsHeld;
    PortSideSsh(w.hs, w.ss, c, NEW_SSH);
    SshLooked(w, c);
    NoForwards(NEW_SSH);
    PortJoins(w.pool.used, Held(w), SshPeer(c));
  }

  lemma {:induction false} SshAskPorts(cfg: Config, w: World, c: Conn, port: nat)
    requires Kept(w) && SshAsk(w, c, port).Some? && PoolOk(cfg, w.pool)
    ensures Kept(SshAsk(w, c, port).value)
  {
    var x := w.ss[c];
    Granted(w.pool, port % 0x1_0000);
    var r := w.pool.Allocate(port % 0x1_0000).0;
    hide Ports.Pool.Allocate, PortsOk, PortSide, Ssh.PortsHeld;
    SshLooked(w, c);
    PortSideSsh(w.hs, w.ss, c, x.(underway := r));
    if r.Some? {
      SshHeldAsk(x, r.value);
      PortAdds(w.pool.used, Held(w), SshPeer(c), Underway, r.value);
    } else {
      assert x.(underway := r) == x;
    }
  }

  lemma {:induction false} SshListenPorts(w: World, c: Conn, ok: bool)
    requires Kept(w) && SshListen(w, c, ok).Some?
    ensures Kept(SshListen(w, c, ok).value)
  {
    var x, p := w.ss[c], w.ss[c].underway.value;
    SshHeldListen(x, p);
    SshLooked(w, c);
    PortFacts(w.pool.used, Held(w), SshPeer(c), Underway, p);
    PortSideSsh(w.hs, w.ss, c, x.(forwards := x.forwards + {p}, underway := None));
    PortSideSsh(w.hs, w.ss, c, x.(underway := None));
    hide PortsOk, PortSide, Ssh.PortsHeld;
    if ok {
      assert Forward(p) !in Held(w)[SshPeer(c)];
      PortMoves(w.pool.used, Held(w), SshPeer(c), Underway, Forward(p));
    } else {
      PortDrops(w.pool.used, Held(w), SshPeer(c), Underway);
    }
  }

  lemma {:induction false} SshReleasePorts(w: World, c: Conn, p: u16)
    requires Kept(w) && c in w.ss && w.ss[c].underway.None? && p in w.ss[c].forwards
    ensures Kept(SshRelease(w, c, p))
  {
    var x := w.ss[c];
    SshHeldDrop(x, p);
    SshLooked(w, c);
    PortSideSsh(w.hs, w.ss, c, x.(forwards := x.forwards - {p}));
    hide PortsOk, PortSide, Ssh.PortsHeld;
    PortDrops(w.pool.used, Held(w), SshPeer(c), Forward(p));
  }

  lemma {:induction false} SshDropPorts(w: World, c: Conn, port: nat, p: u16)
    requires Kept(w)
    ensures SshCancel(w, c, port).Some? ==> Kept(SshCancel(w, c, port).value)
    ensures SshDrop(w, c, p).Some? ==> Kept(SshDrop(w, c, p).value)
  {
    hide Kept, SshRelease;
    if SshCancel(w, c, port).Some? {
      SshReleasePorts(w, c, port % 0x1_0000);
    }
    if SshDrop(w, c, p).Some? {
      SshReleasePorts(w, c, p);
    }
  }

  lemma {:induction false} SshEndPorts(w: World, c: Conn)
    requires Kept(w) && SshEnd(w, c).Some?
    ensures Kept(SshEnd(w, c).value)
  {
    var x := w.ss[c];
    assert x.(ending := true).PortsHeld() == x.PortsHeld();
    SshLooked(w, c);
    PortSideSsh(w.hs, w.ss, c, x.(ending := true));
    hide PortsOk, PortSide, Ssh.PortsHeld;
  }

  // ---- Every run --------------------------------------------------------

  lemma {:induction false} OnePool(cfg: Config, w: World)
    requires Inv(cfg, w)
    ensures PoolOk(cfg, w.pool)
  {
  }

  lemma {:induction false} StepPorts(cfg: Config, w: World, a: Act)
    requires Inv(cfg, w) && Kept(w) && Announceable(cfg) && !cfg.late && Step(cfg, w, a).Some?
    ensures Kept(Step(cfg, w, a).value)
  {
    hide Inv, Kept, PoolOk, Announceable, Connect, Authenticate, RegisterHttp, RegisterTls, Unregister, Unregistered,
         AskPort, TakePort, Listen, Announce, CleanStart, CleanHttp, CleanTcp, CleanTls, CleanEnd, SshConnect, SshAsk,
         SshListen, SshCancel, SshEnd, SshDrop;
    OnePool(cfg, w);
    match a
    case AConnect(h) => ConnectPorts(w, h);
    case AAuth(h) => AuthPorts(cfg, w, h, 0);
    case AHttp(h, requested, generated, id) => NamesPorts(cfg, w, h, requested, generated, id);
    case ATls(h, requested, generated, id) => NamesPorts(cfg, w, h, requested, generated, id);
    case AUnregister(h, id) => UnregisterPorts(cfg, w, h, id);
    case AUnregistered(h) => UnregisterPorts(cfg, w, h, 0);
    case AAsk(h, preferred) => AuthPorts(cfg, w, h, preferred);
    case ATake(h) => TakePorts(cfg, w, h);
    case AListen(h, ok, id) => ListenPorts(cfg, w, h, ok, id);
    case AAnnounce(h) => AnnouncePorts(cfg, w, h);
    case ACleanStart(h) => CleanStartPorts(w, h);
    case ACleanHttp(h, id) => CleanNamesPorts(w, h, id);
    case ACleanTcp(h, id) => CleanTcpPorts(w, h, id);
    case ACleanTls(h, id) => CleanNamesPorts(w, h, id);
    case ACleanEnd(h) => CleanStartPorts(w, h);
    case ASshConnect(c) => SshConnectPorts(w, c);
    case ASshAsk(c, port) => SshAskPorts(cfg, w, c, port);
    case ASshListen(c, ok) => SshListenPorts(w, c, ok);
    case ASshCancel(c, port) => SshDropPorts(w, c, port, 0);
    case ASshEnd(c) => SshEndPorts(w, c);
    case ASshDrop(c, p) => SshDropPorts(w, c, 0, p);
  }

  lemma {:induction false} StartPorts(cfg: Config)
    ensures Kept(Start(cfg))
  {
    var none: map<u16, Entry<Slot, Party>> := map[];
    assert Held(Start(cfg)) == map[] && none.Keys == {} && Balanced(none, Held(Start(cfg)));
  }

  lemma {:induction false} RunPorts(cfg: Config, ws: seq<World>, acts: seq<Act>, i: nat)
    requires Run(cfg, ws, acts) && Announceable(cfg) && !cfg.late && i < |ws|
    ensures Inv(cfg, ws[i]) && Kept(ws[i])
  {
    hide Step, Inv, Announceable, Kept, Start;
    if i == 0 {
      StartInv(cfg);
      StartPorts(cfg);
    } else {
      RunPorts(cfg, ws, acts, i - 1);
      assert Step(cfg, ws[i - 1], acts[i - 1]) == Some(ws[i - 1 + 1]);
      StepKeeps(cfg, ws[i - 1], acts[i - 1]);
      StepPorts(cfg, ws[i - 1], acts[i - 1]);
    }
  }

  /** A port is in use exactly when it is held. */
  ghost predicate Exact(used: set<u16>, held: Holdings) {
    forall p: u16 :: p in used <==> exists o, s :: o in held && s in held[o] && held[o][s] == p
  }

  /** No port has two holders. */
  ghost predicate Unshared(held: Holdings) {
    forall o, s, o', s' ::
      o in held && s in held[o] && o' in held && s' in held[o'] && held[o][s] == held[o'][s'] ==> o == o' && s == s'
  }

  ghost predicate Conserved(w: World) { Exact(w.pool.used, Held(w)) && Unshared(Held(w)) }

  lemma {:induction false} KeptConserves(used: set<u16>, held: Holdings)
    requires PortsOk(used, held)
    ensures Exact(used, held) && Unshared(held)
  {
    forall p: u16 ensures p in used <==> exists o, s :: o in held && s in held[o] && held[o][s] == p {
      PortFacts(used, held, Agent(0), Underway, p);
    }
    forall o, s, o', s' | o in held && s in held[o] && o' in held && s' in held[o'] && held[o][s] == held[o'][s']
      ensures o == o' && s == s'
    {
      PortFacts(used, held, o, s, 0);
    }
  }

  lemma {:induction false} HeldIsUsed(used: set<u16>, held: Holdings, o: Party, s: Slot)
    requires Exact(used, held) && o in held && s in held[o]
    ensures held[o][s] in used
  {
  }

  // ---- When an address cannot be announced ------------------------------

  function Waiting(cfg: Config): World {
    var w := Start(cfg);
    var x := NEW_HANDLER.(auth := true, busy := Asking(cfg.end));
    w.(hs := map[0 := x])
  }

  lemma {:induction false} ClientAsks(cfg: Config)
    ensures Reachable(cfg, Waiting(cfg))
  {
    var w := Start(cfg);
    var ws, acts: seq<Act> := [w], [];
    assert Run(cfg, ws, acts) && ws[|acts|] == w;
    assert Reachable(cfg, w);
    hide Reachable;
    var w1 := w.(hs := map[0 := NEW_HANDLER]);
    assert w.hs[0 := NEW_HANDLER] == w1.hs;
    Reaches(cfg, w, AConnect(0), w1);
    var w2 := w.(hs := map[0 := NEW_HANDLER.(auth := true)]);
    assert w1.hs[0 := NEW_HANDLER.(auth := true)] == w2.hs;
    Reaches(cfg, w1, AAuth(0), w2);
    assert w2.hs[0 := NEW_HANDLER.(auth := true, busy := Asking(cfg.end))] == Waiting(cfg).hs;
    Reaches(cfg, w2, AAsk(0, cfg.end), Waiting(cfg));
  }

  lemma {:induction false} LastPortGranted(cfg: Config)
    requires cfg.start <= cfg.end
    ensures PoolReady(Start(cfg).pool)
    ensures var r := Start(cfg).pool.Allocate(cfg.end);
            r.0 == Some(cfg.end) && r.1.used == {cfg.end}
  {
    if cfg.end == 0 {
      assert Start(cfg).pool.Ahead(0) == 0;
    }
  }

  lemma {:induction false} AnnouncementFails(cfg: Config) returns (w: World)
    requires !Announceable(cfg) && cfg.start <= cfg.end
    ensures Reachable(cfg, w) && w.pool.used == {} && PoolOk(cfg, w.pool) && w.ss == map[]
    ensures 0 in w.hs && w.hs == map[0 := w.hs[0]] && w.hs[0].busy == Idle && !w.hs[0].closed
    ensures w.hs[0].http == map[] && w.hs[0].tls == map[] && w.hs[0].tcp.Keys == {0} && w.hs[0].tcp[0] == cfg.end
  {
    ClientAsks(cfg);
    LastPortGranted(cfg);
    var w3 := Waiting(cfg);
    var pool := w3.pool.Allocate(cfg.end).1;
    hide Reachable, Ports.Pool.Allocate;
    var x := w3.hs[0];
    var w4 := w3.(pool := pool, hs := w3.hs[0 := x.(busy := Holding(cfg.end))]);
    Reaches(cfg, w3, ATake(0), w4);
    var y := x.(busy := Holding(cfg.end)).AddTcp(0, cfg.end);
    var w5 := w4.(ids := {0}, hs := w4.hs[0 := y]);
    assert w4.ids + {0} == {0};
    Reaches(cfg, w4, AListen(0, true, 0), w5);
    w := w5.(pool := pool.Release(cfg.end), hs := w5.hs[0 := y.(busy := Idle)]);
    assert |TcpURL(cfg, cfg.end)| > MAX_URL;
    Reaches(cfg, w5, AAnnounce(0), w);
  }

  lemma {:induction false} ReachableConserved(cfg: Config, w: World)
    requires Reachable(cfg, w) && Announceable(cfg) && !cfg.late
    ensures Conserved(w)
  {
    hide Step, Inv, Exact, Unshared, Announceable, PortsOk;
    var ws, acts :| Run(cfg, ws, acts) && ws[|acts|] == w;
    RunPorts(cfg, ws, acts, |acts|);
    KeptConserves(w.pool.used, Held(w));
  }

  lemma {:induction false} HeldIdle(x: Handler, id: Id)
    requires x.busy == Idle && !x.closed && id in x.tcp
    ensures Tunnel(id) in x.PortsHeld() && x.PortsHeld()[Tunnel(id)] == x.tcp[id]
  {
  }

  lemma {:induction false} FreeButHeld(w: World, id: Id)
    requires w.pool.used == {} && 0 in w.hs && w.hs[0].busy == Idle && !w.hs[0].closed && id in w.hs[0].tcp
    ensures !Conserved(w)
  {
    hide Held, Handler.PortsHeld, Exact, Unshared;
    AgentLooked(w, 0);
    HeldIdle(w.hs[0], id);
    if Conserved(w) {
      HeldIsUsed(w.pool.used, Held(w), Agent(0), Tunnel(id));
    }
  }

  // ---- What the second release does --------------------------------------

  lemma {:induction false} GrantedAgain(pool: Ports.Pool, p: u16)
    requires pool.Valid() && pool.used == {} && pool.end == p && pool.start <= p
    ensures var r := pool.Allocate(p);
            r.0.Some? && pool.InRange(r.0.value) && r.1.used == {r.0.value} && (p != 0 ==> r.0.value == p)
    ensures p == 0 ==> pool.Allocate(p).0 == Some(p)
  {
    Granted(pool, p);
    if p == 0 {
      Ports.AutomaticGrant(pool);
      assert pool.InRange(p) && p !in pool.used;
    } else {
      Ports.PreferredGrant(pool, p);
    }
  }

  /** The port goes to an SSH forward... */
  lemma {:induction false} SshTakesIt(cfg: Config) returns (w: World)
    requires !Announceable(cfg) && cfg.start <= cfg.end
    ensures Reachable(cfg, w) && w.pool.used == {cfg.end} && 0 in w.ss && w.ss[0] == Ssh({cfg.end}, None, false)
    ensures 0 in w.hs && w.hs[0].busy == Idle && !w.hs[0].closed && w.hs[0].tcp.Keys == {0} && w.hs[0].tcp[0] == cfg.end
  {
    var v := AnnouncementFails(cfg);
    GrantedAgain(v.pool, cfg.end);
    var pool := v.pool.Allocate(cfg.end).1;
    hide Reachable, Ports.Pool.Allocate;
    var w1 := v.(ss := v.ss[0 := NEW_SSH]);
    Reaches(cfg, v, ASshConnect(0), w1);
    var w2 := w1.(pool := pool, ss := w1.ss[0 := NEW_SSH.(underway := Some(cfg.end))]);
    Reaches(cfg, w1, ASshAsk(0, cfg.end), w2);
    assert {} + {cfg.end} == {cfg.end};
    w := w2.(ss := w2.ss[0 := Ssh({cfg.end}, None, false)]);
    Reaches(cfg, w2, ASshListen(0, true), w);
  }

  /** ... and the first client's cleanup frees it while the forward holds it. */
  lemma {:induction false} CleanupFreesForward(cfg: Config) returns (w: World)
    requires !Announceable(cfg) && cfg.start <= cfg.end
    ensures Reachable(cfg, w) && 0 in w.ss && cfg.end in w.ss[0].forwards && cfg.end !in w.pool.used
  {
    var v := SshTakesIt(cfg);
    hide Reachable;
    var x := v.hs[0];
    var y := x.(busy := Cleaning(x.http.Keys, x.tcp.Keys, x.tls.Keys));
    var w1 := v.(hs := v.hs[0 := y]);
    Reaches(cfg, v, ACleanStart(0), w1);
    var z := y.(busy := y.busy.(tcpLeft := y.busy.tcpLeft - {0}));
    w := w1.(pool := w1.pool.Release(cfg.end), hs := w1.hs[0 := z]);
    Reaches(cfg, w1, ACleanTcp(0, 0), w);
  }

  // ---- Frames after cleanup ----------------------------------------------

  lemma {:induction false} LateClientAsks(cfg: Config)
    requires cfg.late
    ensures Reachable(cfg, Start(cfg).(hs := map[0 := Finished().(busy := Asking(cfg.end))]))
  {
    ClientLeaves(cfg);
    hide Reachable;
    var x := Finished();
    OneClient(cfg, Start(cfg).(hs := map[0 := x]), x, x.(busy := Asking(cfg.end)), AAsk(0, cfg.end));
  }

  /** A port registered after cleanup is in use and nobody's. */
  lemma {:induction false} LatePortLeaks(cfg: Config) returns (w: World)
    requires cfg.late && cfg.start <= cfg.end
    ensures Reachable(cfg, w) && cfg.end in w.pool.used && w.ss == map[]
    ensures 0 in w.hs && w.hs == map[0 := w.hs[0]] && w.hs[0].PortsHeld() == map[]
  {
    LateClientAsks(cfg);
    LastPortGranted(cfg);
    var w3 := Start(cfg).(hs := map[0 := Finished().(busy := Asking(cfg.end))]);
    var pool := w3.pool.Allocate(cfg.end).1;
    hide Reachable, Ports.Pool.Allocate;
    var x := w3.hs[0];
    var w4 := w3.(pool := pool, hs := w3.hs[0 := x.(busy := Holding(cfg.end))]);
    Reaches(cfg, w3, ATake(0), w4);
    var y := x.(busy := Holding(cfg.end)).AddTcp(0, cfg.end);
    w := w4.(ids := {0}, hs := w4.hs[0 := y]);
    assert w4.ids + {0} == {0};
    Reaches(cfg, w4, AListen(0, true, 0), w);
  }

  ghost predicate NobodyHolds(held: Holdings) { forall o :: o in held ==> held[o] == map[] }

  lemma {:induction false} NobodyFacts(used: set<u16>, held: Holdings)
    requires NobodyHolds(held)
    ensures Unshared(held) && (Exact(used, held) <==> used == {})
  {
    if used != {} {
      var p :| p in used;
      assert !exists o, s :: o in held && s in held[o] && held[o][s] == p;
    }
  }

  lemma {:induction false} EachHoldsNothing(w: World)
    requires forall h :: h in w.hs ==> w.hs[h].PortsHeld() == map[]
    requires forall c :: c in w.ss ==> w.ss[c].PortsHeld() == map[]
    ensures NobodyHolds(Held(w))
  {
    hide Held, Handler.PortsHeld, Ssh.PortsHeld;
    forall o | o in Held(w) ensures Held(w)[o] == map[] {
      match o
      case Agent(h) => AgentLooked(w, h);
      case SshPeer(c) => SshLooked(w, c);
    }
  }

  lemma {:induction false} UsedButUnheld(w: World, p: u16)
    requires p in w.pool.used && w.ss == map[] && 0 in w.hs && w.hs == map[0 := w.hs[0]] && w.hs[0].PortsHeld() == map[]
    ensures !Conserved(w)
  {
    hide Handler.PortsHeld;
    EachHoldsNothing(w);
    hide Held, NobodyHolds, Unshared, Exact;
    NobodyFacts(w.pool.used, Held(w));
  }

  // ---- With an empty range there are no ports -----------------------------

  ghost predicate Portless(w: World) {
    && w.pool.used == {} && w.pool.start > w.pool.end
    && (forall h :: h in w.hs ==> w.hs[h].tcp == map[] && !w.hs[h].busy.Holding?)
    && (forall c :: c in w.ss ==> w.ss[c].forwards == {} && w.ss[c].underway.None?)
  }

  lemma {:induction false} NothingGranted(pool: Ports.Pool, p: u16)
    requires pool.start > pool.end
    ensures pool.Allocate(p) == (None, pool)
  {
  }

  lemma {:induction false} SshPortless(cfg: Config, w: World, a: Act)
    requires Portless(w) && IsSsh(a) && Step(cfg, w, a).Some?
    ensures Portless(Step(cfg, w, a).value)
  {
    if a.ASshAsk? {
      NothingGranted(w.pool, a.port % 0x1_0000);
    }
    hide Ports.Pool.Allocate;
  }

  lemma {:induction false} StepPortless(cfg: Config, w: World, a: Act)
    requires Portless(w) && Step(cfg, w, a).Some?
    ensures Portless(Step(cfg, w, a).value)
  {
    hide Wire.EncodeRegisterOK, TcpURL, ValidSubdomain, Grants, Generated, Ports.Pool.Allocate, SshConnect, SshAsk,
         SshListen, SshCancel, SshEnd, SshDrop;
    if IsSsh(a) {
      SshPortless(cfg, w, a);
      hide Portless;
    } else if a.ATake? && a.h in w.hs && w.hs[a.h].busy.Asking? {
      NothingGranted(w.pool, w.hs[a.h].busy.preferred);
    }
  }

  lemma {:induction false} RunPortless(cfg: Config, ws: seq<World>, acts: seq<Act>, i: nat)
    requires Run(cfg, ws, acts) && cfg.start > cfg.end && i < |ws|
    ensures Portless(ws[i])
  {
    hide Step;
    if i == 0 {
    } else {
      hide Portless;
      RunPortless(cfg, ws, acts, i - 1);
      assert Step(cfg, ws[i - 1], acts[i - 1]) == Some(ws[i - 1 + 1]);
      StepPortless(cfg, ws[i - 1], acts[i - 1]);
    }
  }

  lemma {:induction false} HoldsNothing(x: Handler)
    requires x.tcp == map[] && !x.busy.Holding?
    ensures x.PortsHeld() == map[]
  {
  }

  lemma {:induction false} PortlessConserved(w: World)
    requires Portless(w)
    ensures Conserved(w)
  {
    forall h | h in w.hs ensures w.hs[h].PortsHeld() == map[] {
      HoldsNothing(w.hs[h]);
    }
    forall c | c in w.ss ensures w.ss[c].PortsHeld() == map[] {
    }
    hide Handler.PortsHeld, Ssh.PortsHeld;
    EachHoldsNothing(w);
    hide Held, NobodyHolds, Unshared, Exact;
    NobodyFacts(w.pool.used, Held(w));
  }

  /** Public ports are conserved in every run if and only if there are none, or no frame is
      handled after cleanup and the longest address fits in its announcement. */
  lemma {:induction false} ConservedIff(cfg: Config)
    ensures (forall w :: Reachable(cfg, w) ==> Conserved(w))
       <==> (cfg.start <= cfg.end ==> !cfg.late && Announceable(cfg))
  {
    hide Announceable, Conserved, Step, Portless, Handler.PortsHeld;
    if cfg.start > cfg.end {
      forall w | Reachable(cfg, w) ensures Conserved(w) {
        var ws, acts :| Run(cfg, ws, acts) && ws[|acts|] == w;
        RunPortless(cfg, ws, acts, |acts|);
        PortlessConserved(w);
      }
    } else if cfg.late {
      var w := LatePortLeaks(cfg);
      UsedButUnheld(w, cfg.end);
    } else if !Announceable(cfg) {
      var w := AnnouncementFails(cfg);
      FreeButHeld(w, 0);
    } else {
      forall w | Reachable(cfg, w) ensures Conserved(w) {
        ReachableConserved(cfg, w);
      }
    }
  }
}
