/**
 The registry and a client's handler, updated in place. Each frame handler is tied to the
 steps of the ownership machine it goes through.
 */
module Handlers {
  import opened Basics
  import opened Book
  import opened Subdomain
  import opened Ownership
  import Ports = PortAllocator
  import Wire = FrameCodec

  class Registry {
    var tunnels: Names

    constructor ()
      ensures tunnels == map[]
    {
      tunnels := map[];
    }

    /** A name is given away once; `id` is the fresh random ID. */
    method Register(subdomain: Bytes, owner: Client, id: Id) returns (ok: bool)
      modifies this
      ensures ok == (subdomain !in old(tunnels))
      ensures tunnels == if ok then old(tunnels)[subdomain := Entry(id, owner)] else old(tunnels)
    {
      if subdomain in tunnels {
        return false;
      }
      tunnels := tunnels[subdomain := Entry(id, owner)];
      return true;
    }

    method Unregister(subdomain: Bytes)
      modifies this
      ensures tunnels == old(tunnels) - {subdomain}
    {
      tunnels := tunnels - {subdomain};
    }

    method Get(subdomain: Bytes) returns (r: Option<Entry<Id, Client>>)
      ensures r.Some? <==> subdomain in tunnels
      ensures r.Some? ==> r.value == tunnels[subdomain]
    {
      if subdomain in tunnels {
        return Some(tunnels[subdomain]);
      }
      return None;
    }

    /** Every tunnel once, in some order. */
    method Snapshot() returns (out: seq<(Id, Bytes)>)
      ensures |out| == |tunnels|
      ensures forall i :: 0 <= i < |out| ==> out[i].1 in tunnels && tunnels[out[i].1].slot == out[i].0
      ensures forall i, j :: 0 <= i < j < |out| ==> out[i].1 != out[j].1
    {
      out := [];
      var left := tunnels.Keys;
      while left != {}
        invariant left <= tunnels.Keys && |out| + |left| == |tunnels|
        invariant forall i :: 0 <= i < |out| ==>
                    out[i].1 in tunnels && out[i].1 !in left && tunnels[out[i].1].slot == out[i].0
        invariant forall i, j :: 0 <= i < j < |out| ==> out[i].1 != out[j].1
        decreases |left|
      {
        var name :| name in left;
        out := out + [(tunnels[name].slot, name)];
        left := left - {name};
      }
    }
  }

  datatype Answer = RegisterOK(url: Bytes, id: Id) | RegisterErr

  /** What a register frame asks for, if it is well formed. */
  function Asked(payload: Bytes): Option<Bytes> {
    match Wire.DecodeRegister(payload)
    case None => None
    case Some((port, requested)) => if port == 0 then None else Some(requested)
  }

  /** A client that sends a register frame for port and name asks for that name, or for any if it
      gives none; port 0 is refused. */
  lemma {:induction false} AskedIs(port: u16, name: Bytes, payload: Bytes)
    requires Wire.EncodeRegister(port, name) == Some(payload)
    ensures Asked(payload) == if port == 0 then None else Some(name)
  {
    Wire.RegisterRoundTrip(port, name);
  }

  lemma {:induction false} AsksFor(payload: Bytes)
    ensures forall port: u16, name :: Wire.EncodeRegister(port, name) == Some(payload) ==>
              Asked(payload) == if port == 0 then None else Some(name)
  {
    forall port: u16, name | Wire.EncodeRegister(port, name) == Some(payload)
      ensures Asked(payload) == if port == 0 then None else Some(name)
    {
      AskedIs(port, name, payload);
    }
  }

  class ClientHandler {
    const me: Client
    const cfg: Config
    const registry: Registry
    const tlsRegistry: Registry
    const alloc: Ports.PortAllocator
    /** Whether the server offers TCP and TLS tunnels at all. */
    const tcpOn: bool
    const tlsOn: bool
    var authenticated: bool
    var tunnels: map<Id, Bytes>
    var tlsTunnels: map<Id, Bytes>
    var tcpTunnels: map<Id, u16>
    var tunnelCount: int
    /** closeOnce: cleanup has been done. */
    var closed: bool

    /** The handler between two frames, as the ownership machine sees it. */
    ghost function View(): Handler
      reads this
    {
      Handler(authenticated, tunnels, tlsTunnels, tcpTunnels, tunnelCount, Idle, closed)
    }

    constructor (me: Client, cfg: Config, registry: Registry, tlsRegistry: Registry,
                 alloc: Ports.PortAllocator, tcpOn: bool, tlsOn: bool)
      ensures View() == NEW_HANDLER
    {
      this.me, this.cfg, this.registry, this.tlsRegistry, this.alloc := me, cfg, registry, tlsRegistry, alloc;
      this.tcpOn, this.tlsOn := tcpOn, tlsOn;
      authenticated, tunnels, tlsTunnels, tcpTunnels, tunnelCount, closed := false, map[], map[], map[], 0, false;
    }

    method HandleRegister(payload: Bytes, generated: Bytes, id: Id) returns (r: Answer)
      modifies this, registry
      ensures var asked := Asked(payload);
              r.RegisterOK? <==> asked.Some? && Grants(cfg, old(registry.tunnels), old(View()), asked.value, generated)
      ensures r.RegisterOK? ==>
                var name := NameFor(Asked(payload).value, generated);
                && r == RegisterOK(PublicURL(name, cfg.base), id)
                && registry.tunnels == old(registry.tunnels)[name := Entry(id, me)]
                && View() == old(View()).AddHttp(id, name)
      ensures r.RegisterErr? ==> registry.tunnels == old(registry.tunnels) && View() == old(View())
      ensures forall port: u16, name :: Wire.EncodeRegister(port, name) == Some(payload) ==>
                && (r.RegisterOK? <==> port != 0 && Grants(cfg, old(registry.tunnels), old(View()), name, generated))
                && (r.RegisterOK? ==> r.url == PublicURL(if name == [] then generated else name, cfg.base))
    {
      AsksFor(payload);
      hide Wire.EncodeRegister, Wire.DecodeRegister;
      var decoded := Wire.DecodeRegister(payload);
      if decoded.None? {
        return RegisterErr;
      }
      var (port, requested) := decoded.value;
      if port == 0 {
        return RegisterErr;
      }
      var valid := CheckSubdomain(requested);
      if !valid {
        return RegisterErr;
      }
      var name := if requested == [] then generated else requested;
      var url := PublicURL(name, cfg.base);
      if |url| > MAX_URL {
        return RegisterErr;
      }
      if tunnelCount >= MAX_TUNNELS {
        return RegisterErr;
      }
      var ok := registry.Register(name, me, id);
      if !ok {
        return RegisterErr;
      }
      tunnels := tunnels[id := name];
      tunnelCount := tunnelCount + 1;
      return RegisterOK(url, id);
    }

    /** Knows only the HTTP tunnels. */
    method HandleUnregister(id: Id) returns (ok: bool)
      modifies this, registry
      ensures ok == (id in old(tunnels))
      ensures ok ==> View() == old(View()).DropHttp(id).(busy := Idle)
      ensures ok ==> registry.tunnels == old(registry.tunnels) - {old(tunnels[id])}
      ensures !ok ==> View() == old(View()) && registry.tunnels == old(registry.tunnels)
    {
      if id !in tunnels {
        return false;
      }
      var name := tunnels[id];
      tunnels := tunnels - {id};
      tunnelCount := tunnelCount - 1;
      registry.Unregister(name);
      return true;
    }

    method HandleRegisterTLS(payload: Bytes, generated: Bytes, id: Id) returns (r: Answer)
      modifies this, tlsRegistry
      ensures var asked := Asked(payload);
              r.RegisterOK? <==>
                tlsOn && asked.Some? && Grants(cfg, old(tlsRegistry.tunnels), old(View()), asked.value, generated)
      ensures r.RegisterOK? ==>
                var name := NameFor(Asked(payload).value, generated);
                && r == RegisterOK(PublicURL(name, cfg.base), id)
                && tlsRegistry.tunnels == old(tlsRegistry.tunnels)[name := Entry(id, me)]
                && View() == old(View()).AddTls(id, name)
      ensures r.RegisterErr? ==> tlsRegistry.tunnels == old(tlsRegistry.tunnels) && View() == old(View())
      ensures forall port: u16, name :: Wire.EncodeRegister(port, name) == Some(payload) ==>
                && (r.RegisterOK? <==>
                      && tlsOn && port != 0
                      && Grants(cfg, old(tlsRegistry.tunnels), old(View()), name, generated))
                && (r.RegisterOK? ==> r.url == PublicURL(if name == [] then generated else name, cfg.base))
    {
      AsksFor(payload);
      hide Wire.EncodeRegister, Wire.DecodeRegister;
      var decoded := Wire.DecodeRegister(payload);
      if decoded.None? {
        return RegisterErr;
      }
      var (port, requested) := decoded.value;
      if port == 0 || !tlsOn {
        return RegisterErr;
      }
      var valid := CheckSubdomain(requested);
      if !valid {
        return RegisterErr;
      }
      var name := if requested == [] then generated else requested;
      var url := PublicURL(name, cfg.base);
      if |url| > MAX_URL || tunnelCount >= MAX_TUNNELS {
        return RegisterErr;
      }
      var ok := tlsRegistry.Register(name, me, id);
      if !ok {
        return RegisterErr;
      }
      tlsTunnels := tlsTunnels[id := name];
      tunnelCount := tunnelCount + 1;
      return RegisterOK(url, id);
    }

    /** `listens` says whether the port could be opened. The port is taken from the pool, given
        back when it cannot be opened, and given back without forgetting the tunnel when the
        answer does not fit. */
    method HandleRegisterTCP(payload: Bytes, listens: bool, id: Id) returns (r: Answer)
      requires alloc.State().Valid()
      modifies this, alloc
      ensures alloc.State().Valid()
      ensures var asked := Wire.DecodeRegisterTCP(payload);
              if asked.None? || asked.value.0 == 0 || !tcpOn || old(tunnelCount) >= MAX_TUNNELS then
                r == RegisterErr && View() == old(View()) && alloc.State() == old(alloc.State())
              else
                var (got, pool) := old(alloc.State()).Allocate(asked.value.1);
                if got.None? then r == RegisterErr && View() == old(View()) && alloc.State() == pool
                else if !listens then
                  r == RegisterErr && View() == old(View()) && alloc.State() == pool.Release(got.value)
                else
                  && View() == old(View()).AddTcp(id, got.value).(busy := Idle)
                  && if |TcpURL(cfg, got.value)| <= MAX_URL
                     then r == RegisterOK(TcpURL(cfg, got.value), id) && alloc.State() == pool
                     else r == RegisterErr && alloc.State() == pool.Release(got.value)
    {
      var decoded := Wire.DecodeRegisterTCP(payload);
      if decoded.None? {
        return RegisterErr;
      }
      var (localPort, remotePort) := decoded.value;
      if localPort == 0 || !tcpOn || tunnelCount >= MAX_TUNNELS {
        return RegisterErr;
      }
      var got := alloc.Allocate(remotePort);
      if got.None? {
        return RegisterErr;
      }
      if !listens {
        alloc.Release(got.value);
        return RegisterErr;
      }
      tcpTunnels := tcpTunnels[id := got.value];
      tunnelCount := tunnelCount + 1;
      var url := TcpURL(cfg, got.value);
      if Wire.EncodeRegisterOK(url, id).None? {
        alloc.Release(got.value);
        return RegisterErr;
      }
      return RegisterOK(url, id);
    }

    /** The ownership part of cleanup: every name and every port goes back, once. The tables
        stay as they are. */
    method Cleanup()
      requires alloc.State().Valid() && registry != tlsRegistry
      modifies this`closed, registry, tlsRegistry, alloc
      ensures View() == old(View()).(closed := true) && alloc.State().Valid()
      ensures !old(closed) ==>
                && registry.tunnels == old(registry.tunnels) - tunnels.Values
                && tlsRegistry.tunnels == old(tlsRegistry.tunnels) - tlsTunnels.Values
                && alloc.State() == old(alloc.State()).(used := old(alloc.used) - tcpTunnels.Values)
      ensures old(closed) ==> unchanged(registry) && unchanged(tlsRegistry) && unchanged(alloc)
    {
      if closed {
        return;
      }
      UnregisterAll(registry, tunnels);
      ReleaseAll();
      UnregisterAll(tlsRegistry, tlsTunnels);
      closed := true;
    }

    method UnregisterAll(names: Registry, table: map<Id, Bytes>)
      modifies names
      ensures names.tunnels == old(names.tunnels) - table.Values
    {
      var left := table.Keys;
      ghost var gone: set<Bytes> := {};
      while left != {}
        invariant left <= table.Keys && names.tunnels == old(names.tunnels) - gone
        invariant gone <= table.Values && forall id :: id in table && id !in left ==> table[id] in gone
        decreases |left|
      {
        var id :| id in left;
        names.Unregister(table[id]);
        gone := gone + {table[id]};
        left := left - {id};
      }
      assert gone == table.Values;
    }

    method ReleaseAll()
      requires alloc.State().Valid()
      modifies alloc
      ensures alloc.State() == old(alloc.State()).(used := old(alloc.used) - tcpTunnels.Values) && alloc.State().Valid()
    {
      var left := tcpTunnels.Keys;
      ghost var gone: set<u16> := {};
      while left != {}
        invariant left <= tcpTunnels.Keys && alloc.State().Valid()
        invariant alloc.State() == old(alloc.State()).(used := old(alloc.used) - gone)
        invariant gone <= tcpTunnels.Values && forall id :: id in tcpTunnels && id !in left ==> tcpTunnels[id] in gone
        decreases |left|
      {
        var id :| id in left;
        alloc.Release(tcpTunnels[id]);
        gone := gone + {tcpTunnels[id]};
        left := left - {id};
      }
      assert gone == tcpTunnels.Values;
    }
  }
}
