/**
 Who owns what. Any number of client handlers share the registry of subdomains, the registry
 of TLS names and the pool of public ports; SSH connections share the pool. A step is what
 one goroutine does between two lock boundaries; a handler's own frame loop is sequential,
 so a request that spans several locks keeps the handler `busy`. A refused request changes
 nothing and is no step.
 */
module Ownership {
  import opened Basics
  import opened Book
  import opened Subdomain
  import opened Text
  import Ports = PortAllocator
  import Wire = FrameCodec

  type Id = Wire.u64
  type Client = nat
  type Conn = nat

  const MAX_TUNNELS := 20
  const MAX_URL := 255

  /** `late`: the connection may deliver frames after the handler's cleanup. Nothing in the
      handler keeps them out. */
  datatype Config = Config(base: Bytes, tcpHost: Bytes, start: u16, end: u16, late: bool)

  /** Where a request that spans several locks has got to: a tunnel is out of the handler's
      table but not yet out of the registry; a TCP request has passed the limit, has a port,
      or is in the table but unanswered; cleanup still has these tunnels to undo. */
  datatype Busy =
    | Idle
    | Dropping(id: Id, name: Bytes)
    | Asking(preferred: u16)
    | Holding(port: u16)
    | Announcing(id: Id)
    | Cleaning(httpLeft: set<Id>, tcpLeft: set<Id>, tlsLeft: set<Id>)

  function Only<V>(m: map<Id, V>, left: set<Id>): map<Id, V> { map id | id in m && id in left :: m[id] }

  /** What a port is held for: a tunnel, an SSH forward, or a request under way. */
  datatype Slot = Tunnel(id: Id) | Forward(port: u16) | Underway

  function Slots(tcp: map<Id, u16>): map<Slot, u16> { map id | id in tcp :: Tunnel(id) := tcp[id] }

  function SlotsLeft(tcp: map<Id, u16>, left: set<Id>): map<Slot, u16> {
    map id | id in tcp && id in left :: Tunnel(id) := tcp[id]
  }

  /** `closed`: cleanup is over. It does not empty the tables, but nothing in them is held. */
  datatype Handler = Handler(auth: bool, http: map<Id, Bytes>, tls: map<Id, Bytes>, tcp: map<Id, u16>,
                             count: int, busy: Busy,
                             closed: bool) {
    function HttpHeld(): map<Id, Bytes> {
      match busy
      case Dropping(id, name) => http[id := name]
      case Cleaning(left, _, _) => Only(http, left)
      case _ => if closed then map[] else http
    }

    function TlsHeld(): map<Id, Bytes> {
      match busy
      case Cleaning(_, _, left) => Only(tls, left)
      case _ => if closed then map[] else tls
    }

    function PortsHeld(): map<Slot, u16> {
      match busy
      case Holding(p) => (if closed then map[] else Slots(tcp))[Underway := p]
      case Cleaning(_, left, _) => SlotsLeft(tcp, left)
      case _ => if closed then map[] else Slots(tcp)
    }

    function AddHttp(id: Id, name: Bytes): Handler { this.(http := http[id := name], count := count + 1) }

    function AddTls(id: Id, name: Bytes): Handler { this.(tls := tls[id := name], count := count + 1) }

    function AddTcp(id: Id, port: u16): Handler {
      this.(tcp := tcp[id := port], count := count + 1, busy := Announcing(id))
    }

    function DropHttp(id: Id): Handler
      requires id in http
    {
      this.(http := http - {id}, count := count - 1, busy := Dropping(id, http[id]))
    }
  }

  const NEW_HANDLER := Handler(false, map[], map[], map[], 0, Idle, false)

  /** One SSH connection: its forwards, and the port of the request being served. */
  datatype Ssh = Ssh(forwards: set<u16>, underway: Option<u16>, ending: bool) {
    function PortsHeld(): map<Slot, u16> {
      var m := map p | p in forwards :: Forward(p) := p;
      if underway.Some? then m[Underway := underway.value] else m
    }
  }

  const NEW_SSH := Ssh({}, None, false)

  type Names = map<Bytes, Entry<Id, Client>>

  /** `ids` are the tunnel IDs handed out so far: fresh ones never repeat. */
  datatype World = World(http: Names, tls: Names, pool: Ports.Pool, hs: map<Client, Handler>,
                         ss: map<Conn, Ssh>, ids: set<Id>)

  function Start(cfg: Config): World {
    World(map[], map[], Ports.Pool(cfg.start, cfg.end, {}, cfg.start), map[], map[], {})
  }

  // ---- Clients ----------------------------------------------------------

  function Connect(w: World, h: Client): Option<World> {
    if h in w.hs then None else Some(w.(hs := w.hs[h := NEW_HANDLER]))
  }

  /** The frame loop is free to handle a frame. */
  predicate Free(cfg: Config, w: World, h: Client) {
    h in w.hs && w.hs[h].busy == Idle && (w.hs[h].closed ==> cfg.late)
  }

  function Authenticate(cfg: Config, w: World, h: Client): Option<World> {
    if Free(cfg, w, h) then Some(w.(hs := w.hs[h := w.hs[h].(auth := true)])) else None
  }

  /** And it accepts more than an authentication. */
  predicate Ready(cfg: Config, w: World, h: Client) { Free(cfg, w, h) && w.hs[h].auth }

  /** generateSubdomain: sixteen hexadecimal digits. */
  predicate Generated(s: Bytes) {
    |s| == 16 && forall i :: 0 <= i < |s| ==> 0x30 <= s[i] <= 0x39 || 0x61 <= s[i] <= 0x66
  }

  function NameFor(requested: Bytes, generated: Bytes): Bytes {
    if requested == [] then generated else requested
  }

  /** What handleRegister and handleRegisterTLS check, the registry's own check included. */
  ghost predicate Grants(cfg: Config, names: Names, x: Handler, requested: Bytes, generated: Bytes) {
    && ValidSubdomain(requested)
    && |PublicURL(NameFor(requested, generated), cfg.base)| <= MAX_URL
    && x.count < MAX_TUNNELS
    && NameFor(requested, generated) !in names
  }

  /** A client may have the name it asks for exactly when it is a valid one, its address fits, the
      client has fewer than 20 tunnels and nobody has it; one that asks for none gets the random
      name on the same conditions. */
  lemma {:induction false} GrantsIff(cfg: Config, names: Names, x: Handler, s: Bytes, generated: Bytes)
    requires Generated(generated)
    ensures s != [] ==>
              (Grants(cfg, names, x, s, generated) <==>
                 && |s| <= 63 && (forall i :: 0 <= i < |s| ==> s[i] as char in LOWER + UPPER + DIGITS + "-")
                 && |s| + 1 + |cfg.base| <= 255 && x.count < 20 && s !in names)
    ensures Grants(cfg, names, x, [], generated) <==> 17 + |cfg.base| <= 255 && x.count < 20 && generated !in names
  {
    ValidIff(s);
    ValidIff(generated);
  }

  /** handleRegister inside its lock, on a handler and a registry. */
  function AddHttp(w: World, h: Client, name: Bytes, id: Id): World
    requires h in w.hs
  {
    var x := w.hs[h];
    w.(http := w.http[name := Entry(id, h)], ids := w.ids + {id},
       hs := w.hs[h := x.AddHttp(id, name)])
  }

  ghost function RegisterHttp(cfg: Config, w: World, h: Client, requested: Bytes, generated: Bytes, id: Id)
    : Option<World>
  {
    if Ready(cfg, w, h) && Generated(generated) && id !in w.ids && Grants(cfg, w.http, w.hs[h], requested, generated)
    then Some(AddHttp(w, h, NameFor(requested, generated), id)) else None
  }

  ghost function RegisterTls(cfg: Config, w: World, h: Client, requested: Bytes, generated: Bytes, id: Id)
    : Option<World>
  {
    if Ready(cfg, w, h) && Generated(generated) && id !in w.ids
       && Grants(cfg, w.tls, w.hs[h], requested, generated) then
      var x, name := w.hs[h], NameFor(requested, generated);
      Some(w.(tls := w.tls[name := Entry(id, h)], ids := w.ids + {id},
              hs := w.hs[h := x.AddTls(id, name)]))
    else None
  }

  /** handleUnregister knows only the HTTP tunnels: first the handler's table, then the
      registry. */
  function Unregister(cfg: Config, w: World, h: Client, id: Id): Option<World> {
    if Ready(cfg, w, h) && id in w.hs[h].http then
      var x := w.hs[h];
      Some(w.(hs := w.hs[h := x.DropHttp(id)]))
    else None
  }

  function Unregistered(w: World, h: Client): Option<World> {
    if h in w.hs && w.hs[h].busy.Dropping? then
      Some(w.(http := w.http - {w.hs[h].busy.name}, hs := w.hs[h := w.hs[h].(busy := Idle)]))
    else None
  }

  function AskPort(cfg: Config, w: World, h: Client, preferred: u16): Option<World> {
    if Ready(cfg, w, h) && w.hs[h].count < MAX_TUNNELS
    then Some(w.(hs := w.hs[h := w.hs[h].(busy := Asking(preferred))])) else None
  }

  predicate PoolReady(p: Ports.Pool) { p.start <= p.end ==> p.InRange(p.next) }

  function TakePort(w: World, h: Client): Option<World> {
    if h in w.hs && w.hs[h].busy.Asking? && PoolReady(w.pool) then
      var (r, pool) := w.pool.Allocate(w.hs[h].busy.preferred);
      Some(w.(pool := pool, hs := w.hs[h := w.hs[h].(busy := if r.Some? then Holding(r.value) else Idle)]))
    else None
  }

  function Listen(w: World, h: Client, ok: bool, id: Id): Option<World> {
    if h !in w.hs || !w.hs[h].busy.Holding? || id in w.ids then None
    else
      var x := w.hs[h];
      if ok then
        Some(w.(ids := w.ids + {id}, hs := w.hs[h := x.AddTcp(id, x.busy.port)]))
      else Some(w.(pool := w.pool.Release(x.busy.port), hs := w.hs[h := x.(busy := Idle)]))
  }

  function Decimal(n: nat): (s: Bytes) { Ascii(Numeral(n)) }

  function TcpURL(cfg: Config, p: u16): Bytes { cfg.tcpHost + [COLON] + Decimal(p) }

  /** An address taken apart at its last colon. */
  function HostAndPort(url: Bytes): Option<(Bytes, string)> {
    if url == [] then None
    else
      var (rest, last) := (url[..|url| - 1], url[|url| - 1]);
      if last == COLON then Some((rest, []))
      else
        match HostAndPort(rest)
        case None => None
        case Some((host, port)) => Some((host, port + [last as char]))
  }

  lemma {:induction false} LastColon(host: Bytes, port: Bytes)
    requires COLON !in port
    ensures HostAndPort(host + [COLON] + port) == Some((host, Chars(port)))
  {
    var url := host + [COLON] + port;
    if port == [] {
      assert url[..|url| - 1] == host;
    } else {
      var rest := port[..|port| - 1];
      assert url[..|url| - 1] == host + [COLON] + rest;
      assert url[|url| - 1] == port[|port| - 1] && port[|port| - 1] in port;
      LastColon(host, rest);
      assert Chars(port) == Chars(rest) + [port[|port| - 1] as char];
    }
  }

  /** The address announced for a TCP tunnel names the configured host and, in decimal, the
      port that was granted; so two ports never share an address. */
  lemma {:induction false} AddressNamesPort(cfg: Config, p: u16)
    ensures var r := HostAndPort(TcpURL(cfg, p));
            && r.Some? && r.value.0 == cfg.tcpHost
            && (forall i :: 0 <= i < |r.value.1| ==> Digit(r.value.1[i])) && Value(r.value.1) == p
            && (|r.value.1| > 1 ==> r.value.1[0] != '0')
  {
    NumeralValue(p);
    CharsAscii(Numeral(p));
    LastColon(cfg.tcpHost, Decimal(p));
  }

  /** The answer to a TCP request. When it cannot be encoded the port is released, but the
      tunnel stays in the handler's table. */
  function Announce(cfg: Config, w: World, h: Client): Option<World> {
    if h !in w.hs || !w.hs[h].busy.Announcing? || w.hs[h].busy.id !in w.hs[h].tcp then None
    else
      var x := w.hs[h];
      var p := x.tcp[x.busy.id];
      if Wire.EncodeRegisterOK(TcpURL(cfg, p), x.busy.id).Some? then Some(w.(hs := w.hs[h := x.(busy := Idle)]))
      else Some(w.(pool := w.pool.Release(p), hs := w.hs[h := x.(busy := Idle)]))
  }

  /** cleanup, at most once per handler and in the frame loop: the connection ended, the
      client closed it or failed to authenticate. */
  function CleanStart(w: World, h: Client): Option<World> {
    if h in w.hs && w.hs[h].busy == Idle && !w.hs[h].closed then
      var x := w.hs[h];
      Some(w.(hs := w.hs[h := x.(busy := Cleaning(x.http.Keys, x.tcp.Keys, x.tls.Keys))]))
    else None
  }

  function CleanHttp(w: World, h: Client, id: Id): Option<World> {
    if h in w.hs && w.hs[h].busy.Cleaning? && id in w.hs[h].busy.httpLeft && id in w.hs[h].http then
      var x := w.hs[h];
      Some(w.(http := w.http - {x.http[id]}, hs := w.hs[h := x.(busy := x.busy.(httpLeft := x.busy.httpLeft - {id}))]))
    else None
  }

  function CleanTcp(w: World, h: Client, id: Id): Option<World> {
    if h in w.hs && w.hs[h].busy.Cleaning? && id in w.hs[h].busy.tcpLeft && id in w.hs[h].tcp then
      var x := w.hs[h];
      Some(w.(pool := w.pool.Release(x.tcp[id]),
              hs := w.hs[h := x.(busy := x.busy.(tcpLeft := x.busy.tcpLeft - {id}))]))
    else None
  }

  function CleanTls(w: World, h: Client, id: Id): Option<World> {
    if h in w.hs && w.hs[h].busy.Cleaning? && id in w.hs[h].busy.tlsLeft && id in w.hs[h].tls then
      var x := w.hs[h];
      Some(w.(tls := w.tls - {x.tls[id]}, hs := w.hs[h := x.(busy := x.busy.(tlsLeft := x.busy.tlsLeft - {id}))]))
    else None
  }

  function CleanEnd(w: World, h: Client): Option<World> {
    if h in w.hs && w.hs[h].busy == Cleaning({}, {}, {})
    then Some(w.(hs := w.hs[h := w.hs[h].(busy := Idle, closed := true)])) else None
  }

  // ---- SSH connections --------------------------------------------------

  function SshConnect(w: World, c: Conn): Option<World> {
    if c in w.ss then None else Some(w.(ss := w.ss[c := NEW_SSH]))
  }

  /** The 32-bit port of the request is truncated to 16 bits. */
  function SshAsk(w: World, c: Conn, port: nat): Option<World> {
    if c in w.ss && w.ss[c].underway.None? && !w.ss[c].ending && PoolReady(w.pool) then
      var (r, pool) := w.pool.Allocate(port % 0x1_0000);
      Some(w.(pool := pool, ss := w.ss[c := w.ss[c].(underway := r)]))
    else None
  }

  function SshListen(w: World, c: Conn, ok: bool): Option<World> {
    if c !in w.ss || w.ss[c].underway.None? then None
    else
      var x, p := w.ss[c], w.ss[c].underway.value;
      if ok then Some(w.(ss := w.ss[c := x.(forwards := x.forwards + {p}, underway := None)]))
      else Some(w.(pool := w.pool.Release(p), ss := w.ss[c := x.(underway := None)]))
  }

  function SshCancel(w: World, c: Conn, port: nat): Option<World> {
    if c in w.ss && w.ss[c].underway.None? && !w.ss[c].ending && port % 0x1_0000 in w.ss[c].forwards
    then Some(SshRelease(w, c, port % 0x1_0000)) else None
  }

  function SshRelease(w: World, c: Conn, p: u16): World
    requires c in w.ss
  {
    w.(pool := w.pool.Release(p), ss := w.ss[c := w.ss[c].(forwards := w.ss[c].forwards - {p})])
  }

  function SshEnd(w: World, c: Conn): Option<World> {
    if c in w.ss && w.ss[c].underway.None? then Some(w.(ss := w.ss[c := w.ss[c].(ending := true)])) else None
  }

  function SshDrop(w: World, c: Conn, p: u16): Option<World> {
    if c in w.ss && w.ss[c].ending && w.ss[c].underway.None? && p in w.ss[c].forwards
    then Some(SshRelease(w, c, p)) else None
  }

  // ---- Runs -------------------------------------------------------------

  datatype Act =
    | AConnect(h: Client) | AAuth(h: Client) | AHttp(h: Client, requested: Bytes, generated: Bytes, id: Id)
    | ATls(h: Client, requested: Bytes, generated: Bytes, id: Id) | AUnregister(h: Client, id: Id)
    | AUnregistered(h: Client)
    | AAsk(h: Client, preferred: u16) | ATake(h: Client) | AListen(h: Client, ok: bool, id: Id) | AAnnounce(h: Client)
    | ACleanStart(h: Client) | ACleanHttp(h: Client, id: Id) | ACleanTcp(h: Client, id: Id)
    | ACleanTls(h: Client, id: Id)
    | ACleanEnd(h: Client)
    | ASshConnect(c: Conn) | ASshAsk(c: Conn, port: nat) | ASshListen(c: Conn, ok: bool)
    | ASshCancel(c: Conn, port: nat)
    | ASshEnd(c: Conn) | ASshDrop(c: Conn, p: u16)

  ghost function Step(cfg: Config, w: World, a: Act): Option<World> {
    match a
    case AConnect(h) => Connect(w, h)
    case AAuth(h) => Authenticate(cfg, w, h)
    case AHttp(h, requested, generated, id) => RegisterHttp(cfg, w, h, requested, generated, id)
    case ATls(h, requested, generated, id) => RegisterTls(cfg, w, h, requested, generated, id)
    case AUnregister(h, id) => Unregister(cfg, w, h, id)
    case AUnregistered(h) => Unregistered(w, h)
    case AAsk(h, preferred) => AskPort(cfg, w, h, preferred)
    case ATake(h) => TakePort(w, h)
    case AListen(h, ok, id) => Listen(w, h, ok, id)
    case AAnnounce(h) => Announce(cfg, w, h)
    case ACleanStart(h) => CleanStart(w, h)
    case ACleanHttp(h, id) => CleanHttp(w, h, id)
    case ACleanTcp(h, id) => CleanTcp(w, h, id)
    case ACleanTls(h, id) => CleanTls(w, h, id)
    case ACleanEnd(h) => CleanEnd(w, h)
    case ASshConnect(c) => SshConnect(w, c)
    case ASshAsk(c, port) => SshAsk(w, c, port)
    case ASshListen(c, ok) => SshListen(w, c, ok)
    case ASshCancel(c, port) => SshCancel(w, c, port)
    case ASshEnd(c) => SshEnd(w, c)
    case ASshDrop(c, p) => SshDrop(w, c, p)
  }

  ghost predicate Run(cfg: Config, ws: seq<World>, acts: seq<Act>) {
    && |ws| == |acts| + 1 && ws[0] == Start(cfg)
    && forall i :: 0 <= i < |acts| ==> Step(cfg, ws[i], acts[i]) == Some(ws[i + 1])
  }

  ghost predicate Reachable(cfg: Config, w: World) {
    exists ws, acts :: Run(cfg, ws, acts) && ws[|acts|] == w
  }

  // ---- Invariants -------------------------------------------------------

  ghost function HttpSide(hs: map<Client, Handler>): map<Client, map<Id, Bytes>> { map h | h in hs :: hs[h].HttpHeld() }

  ghost function TlsSide(hs: map<Client, Handler>): map<Client, map<Id, Bytes>> { map h | h in hs :: hs[h].TlsHeld() }

  datatype Party = Agent(h: Client) | SshPeer(c: Conn)

  ghost function AgentSide(hs: map<Client, Handler>): map<Party, map<Slot, u16>> {
    map h | h in hs :: Agent(h) := hs[h].PortsHeld()
  }

  ghost function SshSide(ss: map<Conn, Ssh>): map<Party, map<Slot, u16>> {
    map c | c in ss :: SshPeer(c) := ss[c].PortsHeld()
  }

  ghost function PortSide(hs: map<Client, Handler>, ss: map<Conn, Ssh>): map<Party, map<Slot, u16>> {
    AgentSide(hs) + SshSide(ss)
  }

  /** A handler's own accounts. */
  ghost predicate HandlerOk(x: Handler, ids: set<Id>) {
    && x.count == |x.http| + |x.tls| + |x.tcp| && x.count <= MAX_TUNNELS
    && (x.busy.Asking? || x.busy.Holding? ==> x.count < MAX_TUNNELS)
    && (!x.auth ==> x.count == 0 && (x.busy == Idle || x.busy.Cleaning?))
    && (x.closed ==> x.busy == Idle)
    && x.http.Keys <= ids && x.tls.Keys <= ids && x.tcp.Keys <= ids
    && (x.busy.Dropping? ==> x.busy.id in ids && x.busy.id !in x.http)
    && (x.busy.Announcing? ==> x.busy.id in x.tcp)
    && (x.busy.Cleaning? ==>
          && x.busy.httpLeft <= x.http.Keys && x.busy.tlsLeft <= x.tls.Keys && x.busy.tcpLeft <= x.tcp.Keys)
  }

  ghost predicate HandlersOk(hs: map<Client, Handler>, ids: set<Id>) {
    forall h :: h in hs ==> HandlerOk(hs[h], ids)
  }

  ghost predicate NamesOk(cfg: Config, names: Names) {
    forall s :: s in names ==> s != [] && ValidSubdomain(s) && |PublicURL(s, cfg.base)| <= MAX_URL
  }

  ghost predicate SideOk(cfg: Config, names: Names, side: map<Client, map<Id, Bytes>>) {
    Balanced(names, side) && NamesOk(cfg, names)
  }

  ghost predicate PoolOk(cfg: Config, pool: Ports.Pool) {
    pool.Valid() && pool.start == cfg.start && pool.end == cfg.end
  }

  ghost predicate Inv(cfg: Config, w: World) {
    && HandlersOk(w.hs, w.ids) && PoolOk(cfg, w.pool)
    && SideOk(cfg, w.http, HttpSide(w.hs)) && SideOk(cfg, w.tls, TlsSide(w.hs))
  }

  /** The ports in use are exactly those that are held, each by one holder. */
  ghost predicate PortsOk(used: set<u16>, held: map<Party, map<Slot, u16>>) {
    exists book: map<u16, Entry<Slot, Party>> :: book.Keys == used && Balanced(book, held)
  }
}
