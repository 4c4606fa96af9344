/**
 No relayed connection can get stuck: whatever state it is in, once the link is lost and nothing
 succeeds any more, the goroutines of both sides come to their end without anybody's help.
 */
module TcpEnds {
  import opened Basics
  import opened Link
  import opened TcpRelay
  import TcpRuns

  /** A step that needs nobody's help: it takes no frame, and whatever it tries fails. */
  predicate Helpless(a: Act) {
    match a
    case SOpen(ok) => !ok
    case SPrefix(ok) => !ok
    case SRead(b, _, last) => b == [] && last
    case SClose(ok) => !ok
    case DWrite(n, ok) => n == 0 && !ok
    case FStall(ok) => !ok
    case KWrite(n, ok) => n == 0 && !ok
    case CRefuse(ok) => !ok
    case CAck(ok) => !ok
    case CEnd(b) => b == []
    case CClose(ok) => !ok
    case SGiveUp | SUnlist | SDone | DStop | FDrop | FCleanup | KShut | CDone | COff => true
    case _ => false
  }

  ghost predicate Chain(cs: seq<Tcp>, acts: seq<Act>) {
    && |cs| == |acts| + 1
    && forall i :: 0 <= i < |acts| ==> Helpless(acts[i]) && Effect(cs[i], acts[i]) == Just(cs[i + 1])
  }

  /** Such steps lead from one state to the other. */
  ghost predicate Leads(c: Tcp, n: Tcp) {
    exists cs, acts :: Chain(cs, acts) && cs[0] == c && cs[|acts|] == n
  }

  lemma {:induction false} Stays(c: Tcp)
    ensures Leads(c, c)
  {
    var cs, acts: seq<Act> := [c], [];
    assert Chain(cs, acts);
  }

  lemma {:induction false} Then(c: Tcp, n: Tcp, a: Act, m: Tcp)
    requires Leads(c, n) && Helpless(a) && Effect(n, a) == Just(m)
    ensures Leads(c, m)
  {
    hide Effect, Helpless;
    var cs, acts :| Chain(cs, acts) && cs[0] == c && cs[|acts|] == n;
    var cs', acts' := cs + [m], acts + [a];
    forall i | 0 <= i < |acts'| ensures Helpless(acts'[i]) && Effect(cs'[i], acts'[i]) == Just(cs'[i + 1]) {
      if i < |acts| {
        assert cs'[i] == cs[i] && cs'[i + 1] == cs[i + 1] && acts'[i] == acts[i];
      }
    }
    assert Chain(cs', acts') && cs'[0] == c && cs'[|acts'|] == m;
  }

  // ---- The server -----------------------------------------------------------

  /** The link is lost: the entry goes, its channel closes, and the drain may stop at once. */
  lemma {:induction false} LinkIsLost(c: Tcp, b: Tcp) returns (n: Tcp)
    requires Leads(c, b)
    ensures Leads(c, n) && n.s.phase == b.s.phase && !n.s.inbox.listed && n.s.stopped
    ensures n.s.inbox.hand == b.s.inbox.hand
    ensures b.s.inbox.listed ==> n.s.inbox.closed && n.s.inbox.done
    ensures n.s.inbox.queue == b.s.inbox.queue && n.k == b.k && n.s.drain == b.s.drain
    ensures b.s.inbox.done ==> n.s.inbox.done
  {
    hide Leads, RelayEffect, DialEffect;
    n := b.(s := b.s.(inbox := CleanUp(b.s.inbox), stopped := true), n := Fault(b.n, false));
    Then(c, b, FCleanup, n);
  }

  lemma {:induction false} LoopEnds(c: Tcp, b: Tcp) returns (n: Tcp)
    requires Leads(c, b)
    ensures Leads(c, n) && n.s.inbox.hand.None? && n.s.phase == b.s.phase && n.s.drain == b.s.drain && n.k == b.k
    ensures n.s.inbox.listed ==> b.s.inbox.listed
  {
    hide Inbox.Valid, Leads, Effect;
    n := b;
    if b.s.inbox.hand.Some? {
      var i := b.s.inbox;
      if i.done || i.closed {
        n := PayloadDropped(c, b);
      } else {
        n := PayloadStalls(c, b);
      }
    }
  }

  lemma {:induction false} PayloadDropped(c: Tcp, b: Tcp) returns (n: Tcp)
    requires Leads(c, b) && b.s.inbox.hand.Some? && (b.s.inbox.done || b.s.inbox.closed)
    ensures Leads(c, n) && n == b.(s := b.s.(inbox := Drop(b.s.inbox)))
  {
    hide Inbox.Valid, Leads, RelayEffect, DialEffect;
    n := b.(s := b.s.(inbox := Drop(b.s.inbox)));
    Then(c, b, FDrop, n);
  }

  lemma {:induction false} PayloadStalls(c: Tcp, b: Tcp) returns (n: Tcp)
    requires Leads(c, b) && b.s.inbox.hand.Some?
    ensures Leads(c, n) && n == b.(s := b.s.(inbox := Stall(b.s.inbox)), n := Fault(b.n, false))
  {
    hide Inbox.Valid, Leads, RelayEffect, DialEffect;
    n := b.(s := b.s.(inbox := Stall(b.s.inbox)), n := Fault(b.n, false));
    Then(c, b, FStall(false), n);
  }

  lemma {:induction false} DrainEnds(c: Tcp, b: Tcp) returns (n: Tcp)
    requires Leads(c, b) && b.s.stopped
    ensures Leads(c, n) && n.s.drain != Running && n.s.phase == b.s.phase && n.k == b.k
    ensures n.s.inbox == b.s.inbox.(queue := n.s.inbox.queue, taken := n.s.inbox.taken)
  {
    hide Inbox.Valid, Leads, LoopEffect, DialEffect;
    n := b;
    var q := b.s.inbox.queue;
    if b.s.drain == Running && q != [] {
      n := b.(s := b.s.(drain := Stopped, inbox := Take(b.s.inbox)), n := Fault(b.n, false),
              o := b.o.(written := b.o.written + q[0][..0], torn := b.o.torn + q[0][0..]));
      Then(c, b, DWrite(0, false), n);
    } else if b.s.drain == Running {
      n := b.(s := b.s.(drain := Stopped),
              n := b.n.(cut := b.n.cut || !(b.s.inbox.closed && b.s.inbox.queue == [])));
      Then(c, b, DStop, n);
    }
  }

  /** Before it has pumped anything. */
  lemma {:induction false} StartFails(c: Tcp, b: Tcp) returns (n: Tcp)
    requires Leads(c, b) && (b.s.phase == Listed || b.s.phase == Waiting || b.s.phase == Released)
    ensures Leads(c, n) && (n.s.phase == Leaving || n.s.phase == Pumping) && n.s.inbox == b.s.inbox && n.k == b.k
    ensures n.s.stopped == b.s.stopped
  {
    hide Leads, LoopEffect, DialEffect;
    if b.s.phase == Listed {
      n := b.(s := b.s.(phase := Leaving), n := Fault(b.n, false));
      Then(c, b, SOpen(false), n);
    } else if b.s.phase == Waiting {
      n := b.(s := b.s.(phase := Leaving), n := Fault(b.n, false));
      Then(c, b, SGiveUp, n);
    } else if b.i.prefix == [] {
      n := b.(s := b.s.(phase := Pumping, drain := Running));
      Then(c, b, SPrefix(false), n);
    } else {
      n := b.(s := b.s.(phase := Leaving), n := Fault(b.n, false));
      Then(c, b, SPrefix(false), n);
    }
  }

  lemma {:induction false} PumpEnds(c: Tcp, b: Tcp) returns (n: Tcp)
    requires Leads(c, b) && (b.s.phase == Pumping || b.s.phase == Closing)
    ensures Leads(c, n) && n.s == b.s.(phase := Leaving) && n.k == b.k
  {
    hide Leads, LoopEffect, DialEffect;
    var m := b;
    if b.s.phase == Pumping {
      m := b.(s := b.s.(phase := Closing));
      Then(c, b, SRead([], false, true), m);
    }
    n := m.(s := m.s.(phase := Leaving), n := Fault(m.n, false));
    Then(c, m, SClose(false), n);
  }

  lemma {:induction false} RelayLeaves(c: Tcp, b: Tcp) returns (n: Tcp)
    requires Leads(c, b) && (b.s.phase == Leaving || b.s.phase == Unlisted || b.s.phase == Gone)
    requires !b.s.inbox.listed && (b.s.phase == Gone ==> b.s.inbox.done)
    ensures Leads(c, n) && n.s.phase == Gone && !n.s.inbox.listed && n.s.inbox.done
    ensures n.s.stopped == b.s.stopped && n.s.drain == b.s.drain && n.k == b.k
  {
    hide Leads, LoopEffect, DialEffect;
    var m := b;
    if b.s.phase == Leaving {
      m := b.(s := b.s.(phase := Unlisted));
      Then(c, b, SUnlist, m);
    }
    n := m;
    if m.s.phase == Unlisted {
      n := m.(s := m.s.(phase := Gone, inbox := m.s.inbox.(done := true)));
      Then(c, m, SDone, n);
    }
  }

  lemma {:induction false} ServerEnds(c: Tcp, b: Tcp) returns (n: Tcp)
    requires Leads(c, b) && ServerTidy(b.s)
    ensures Leads(c, n) && (n.s.phase == Idle || n.s.phase == Gone) && n.s.drain != Running && n.k == b.k
    ensures n.s.inbox.hand.None? && !n.s.inbox.listed
  {
    hide Leads;
    n := LinkIsLost(c, b);
    if n.s.phase == Listed || n.s.phase == Waiting || n.s.phase == Released {
      n := StartFails(c, n);
    }
    if n.s.phase == Pumping || n.s.phase == Closing {
      n := PumpEnds(c, n);
    }
    if n.s.phase != Idle {
      n := RelayLeaves(c, n);
    }
    n := DrainEnds(c, n);
    n := LoopEnds(c, n);
  }

  /** A consumer that does not consume ends its stream on both sides: the entry goes, what is queued
      can still be taken, then its channel ends, and the client is told. */
  lemma {:induction false} StallTellsBoth(c: Tcp)
    requires c.s.inbox.hand.Some?
    ensures var e := Effect(c, FStall(true));
            && e.Some?
            && var o := e.value;
               && o.down == [Close] && o.up == [] && o.core.k == c.k
               && !o.core.s.inbox.listed && o.core.s.inbox.closed && o.core.s.inbox.hand.None?
               && o.core.s.inbox.queue == c.s.inbox.queue && o.core.s.inbox.taken == c.s.inbox.taken
  {
    hide Inbox.Valid;
  }

  // ---- The client -----------------------------------------------------------

  /** The tunnel is closed: from then on nothing is written to the local connection but what is
      being written. */
  lemma {:induction false} TunnelCloses(c: Tcp, b: Tcp) returns (n: Tcp)
    requires Leads(c, b)
    ensures Leads(c, n) && !n.k.relay && !Live(n.k) && (b.k.relay ==> n.k.done)
    ensures n.k.phase == b.k.phase && n.k.hand == b.k.hand && n.s == b.s
  {
    hide Leads, RelayEffect, DialEffect;
    n := b.(k := b.k.(relay := false, done := b.k.done || b.k.relay), n := Fault(b.n, false));
    Then(c, b, KShut, n);
  }

  lemma {:induction false} WriteFails(c: Tcp, b: Tcp) returns (n: Tcp)
    requires Leads(c, b)
    ensures Leads(c, n) && n.k.hand.None? && n.k.phase == b.k.phase && n.k.relay == b.k.relay && n.s == b.s
  {
    hide Leads, RelayEffect, DialEffect;
    n := b;
    if b.k.hand.Some? {
      var v := b.k.hand.value;
      n := b.(i := b.i.(written := b.i.written + v[..0], torn := b.i.torn + v[0..]),
              k := b.k.(hand := None, done := true), n := Fault(b.n, false));
      Then(c, b, KWrite(0, false), n);
    }
  }

  lemma {:induction false} DialFails(c: Tcp, b: Tcp) returns (n: Tcp)
    requires Leads(c, b) && (b.k.phase == Spawned || b.k.phase == Registered)
    ensures Leads(c, n) && (n.k.phase == Ended || n.k.phase == Reading)
    ensures n.k.hand == b.k.hand && n.k.relay == b.k.relay && n.s == b.s
  {
    hide Leads, RelayEffect, LoopEffect;
    if b.k.phase == Spawned {
      n := b.(k := b.k.(phase := Ended), n := Fault(b.n, false));
      Then(c, b, CRefuse(false), n);
    } else {
      n := b.(k := b.k.(phase := Reading), n := Fault(b.n, false));
      Then(c, b, CAck(false), n);
    }
  }

  lemma {:induction false} ReadFails(c: Tcp, b: Tcp) returns (n: Tcp)
    requires Leads(c, b) && (b.k.phase == Reading || b.k.phase == Exiting)
    ensures Leads(c, n) && n.k == b.k.(phase := ExitDone, done := true) && n.s == b.s
  {
    hide Leads, RelayEffect, LoopEffect;
    var m := b;
    if b.k.phase == Reading {
      m := b.(k := b.k.(phase := Exiting), o := b.o.(read := b.o.read + [], unsent := b.o.unsent + []),
              n := b.n.(localFirst := b.n.localFirst || Live(b.k)));
      Then(c, b, CEnd([]), m);
    }
    n := m.(k := m.k.(phase := ExitDone, done := true));
    Then(c, m, CDone, n);
  }

  lemma {:induction false} ClientLeaves(c: Tcp, b: Tcp) returns (n: Tcp)
    requires Leads(c, b) && (b.k.phase == ExitDone || b.k.phase == ExitOff) && (b.k.phase == ExitOff ==> !b.k.relay)
    ensures Leads(c, n) && n.k == b.k.(phase := Ended, relay := false) && n.s == b.s
  {
    hide Leads, RelayEffect, LoopEffect;
    var m := b;
    if b.k.phase == ExitDone {
      m := b.(k := b.k.(phase := ExitOff, relay := false));
      Then(c, b, COff, m);
    }
    n := m.(k := m.k.(phase := Ended), n := Fault(m.n, false));
    Then(c, m, CClose(false), n);
  }

  lemma {:induction false} ClientEnds(c: Tcp, b: Tcp) returns (n: Tcp)
    requires Leads(c, b)
    ensures Leads(c, n) && (n.k.phase == Absent || n.k.phase == Ended) && n.s == b.s
    ensures n.k.hand.None? && !n.k.relay
  {
    hide Leads;
    n := TunnelCloses(c, b);
    n := WriteFails(c, n);
    if n.k.phase == Spawned || n.k.phase == Registered {
      n := DialFails(c, n);
    }
    if n.k.phase == Reading || n.k.phase == Exiting {
      n := ReadFails(c, n);
    }
    if n.k.phase == ExitDone || n.k.phase == ExitOff {
      n := ClientLeaves(c, n);
    }
  }

  // ---- Every run ------------------------------------------------------------

  predicate ServerTidy(s: Server) {
    && (s.phase == Gone ==> s.inbox.done) && (s.phase == Idle ==> s.drain == NotYet)
  }

  lemma {:induction false} StepTidy(c: Tcp, a: Act)
    requires ServerTidy(c.s) && Effect(c, a).Some?
    ensures ServerTidy(Effect(c, a).value.core.s)
  {
    hide Inbox.Valid;
  }

  lemma {:induction false} RunTidy(sts: seq<TcpRuns.St>, acts: seq<Act>, i: nat)
    requires TcpRuns.Run(sts, acts) && i < |sts|
    ensures ServerTidy(sts[i].c.s)
  {
    hide Effect, Takes;
    if i > 0 {
      hide ServerTidy;
      RunTidy(sts, acts, i - 1);
      assert TcpRuns.Step(sts[i - 1], acts[i - 1], sts[i - 1 + 1]);
      StepTidy(sts[i - 1].c, acts[i - 1]);
    }
  }

  /** Wherever a run has got to, both sides can end from there without anybody's help, and the ID is
      then in no table. */
  lemma {:induction false} AlwaysEnds(sts: seq<TcpRuns.St>, acts: seq<Act>) returns (n: Tcp)
    requires TcpRuns.Run(sts, acts)
    ensures Leads(sts[|acts|].c, n)
    ensures (n.s.phase == Idle || n.s.phase == Gone) && n.s.drain != Running
    ensures n.k.phase == Absent || n.k.phase == Ended
    ensures n.s.inbox.hand.None? && n.k.hand.None? && !n.s.inbox.listed && !n.k.relay
  {
    hide Leads;
    var c := sts[|acts|].c;
    RunTidy(sts, acts, |acts|);
    hide TcpRuns.Step, ServerTidy;
    Stays(c);
    n := ServerEnds(c, c);
    n := ClientEnds(c, n);
  }

  // ---- A refused connection -------------------------------------------------

  /** Some run, faults or not, gets there. */
  ghost predicate Arrives(st: TcpRuns.St) {
    exists sts, acts :: TcpRuns.Run(sts, acts) && sts[|acts|] == st
  }

  lemma {:induction false} Goes(st: TcpRuns.St, a: Act, n: TcpRuns.St)
    requires Arrives(st) && TcpRuns.Step(st, a, n)
    ensures Arrives(n)
  {
    hide TcpRuns.Step;
    var sts, acts :| TcpRuns.Run(sts, acts) && sts[|acts|] == st;
    var s', a' := sts + [n], acts + [a];
    forall i | 0 <= i < |a'| ensures TcpRuns.Step(s'[i], a'[i], s'[i + 1]) {
      if i < |acts| {
        assert s'[i] == sts[i] && s'[i + 1] == sts[i + 1] && a'[i] == acts[i];
      }
    }
    assert TcpRuns.Run(s', a') && s'[|a'|] == n;
  }

  lemma {:induction false} AskArrives(prefix: Bytes)
    ensures Arrives(TcpRuns.St(TcpRuns.Asked(prefix), [TCPOpen] + [], []))
  {
    hide TcpRuns.Step;
    TcpRuns.Asks(prefix, false);
  }

  lemma {:induction false} AskIsHeard(prefix: Bytes)
    ensures var c := TcpRuns.Asked(prefix); Arrives(TcpRuns.St(c.(k := c.k.(phase := Spawned)), [], []))
  {
    AskArrives(prefix);
    hide Arrives, RelayEffect, DialEffect;
    var c := TcpRuns.Asked(prefix);
    Goes(TcpRuns.St(c, [TCPOpen] + [], []), KOpen, TcpRuns.St(c.(k := c.k.(phase := Spawned)), [], []));
  }

  /** The client refuses the connection and says so. */
  lemma {:induction false} Refuses(prefix: Bytes) returns (n: Tcp)
    ensures Arrives(TcpRuns.St(n, [], [Close]))
    ensures n.s == TcpRuns.Asked(prefix).s && n.k.phase == Ended && !n.k.relay && n.o.written == [] && n.i.written == []
    ensures n.i.prefix == prefix
  {
    AskIsHeard(prefix);
    hide Arrives, RelayEffect, LoopEffect;
    var a := TcpRuns.Asked(prefix);
    var c := a.(k := a.k.(phase := Spawned));
    n := c.(k := c.k.(phase := Ended, closeSent := true), n := Fault(c.n, false));
    assert [] + [Close] == [Close];
    Goes(TcpRuns.St(c, [], []), CRefuse(true), TcpRuns.St(n, [], [Close]));
  }

  /** And that releases the waiting relay at once: its stream is over, and nothing is written. */
  lemma {:induction false} RefusalReleases(prefix: Bytes) returns (n: Tcp)
    ensures Arrives(TcpRuns.St(n, [], [])) && n.s.phase == Released && !n.s.inbox.listed && n.s.inbox.closed
    ensures n.k.phase == Ended && n.i.prefix == prefix && n.i.written == [] && n.o.written == []
  {
    var c := Refuses(prefix);
    hide Arrives, DialEffect;
    var m := c.(s := c.s.(ready := true, inbox := c.s.inbox.(listed := false, closed := true)));
    assert [Close][1..] == [];
    Goes(TcpRuns.St(c, [], [Close]), FClose, TcpRuns.St(m, [], []));
    n := m.(s := m.s.(phase := Released));
    Goes(TcpRuns.St(m, [], []), SReady, TcpRuns.St(n, [], []));
  }

  // ---- What comes too late --------------------------------------------------

  /** The entry is out of the table, its relay released or not. */
  predicate OffTable(s: Server, ready: bool) { s.inbox.made && !s.inbox.listed && s.ready == ready }

  lemma {:induction false} StaysOff(c: Tcp, a: Act)
    requires c.s.inbox.made && !c.s.inbox.listed && Effect(c, a).Some?
    ensures OffTable(Effect(c, a).value.core.s, c.s.ready)
  {
    hide Inbox.Valid;
  }

  lemma {:induction false} StepMoves(st: TcpRuns.St, a: Act, n: TcpRuns.St)
    requires TcpRuns.Step(st, a, n)
    ensures Effect(st.c, a).Some? && n.c == Effect(st.c, a).value.core
  {
    hide Effect, Takes;
  }

  /** Once a relay's entry is out of the table, no readiness releases it any more. */
  lemma {:induction false} LateReadyIgnored(sts: seq<TcpRuns.St>, acts: seq<Act>, i: nat, j: nat)
    requires TcpRuns.Run(sts, acts) && i <= j < |sts| && sts[i].c.s.inbox.made && !sts[i].c.s.inbox.listed
    ensures OffTable(sts[j].c.s, sts[i].c.s.ready)
  {
    hide Effect, Takes, TcpRuns.Step;
    if i < j {
      LateReadyIgnored(sts, acts, i, j - 1);
      assert TcpRuns.Step(sts[j - 1], acts[j - 1], sts[j - 1 + 1]);
      StepMoves(sts[j - 1], acts[j - 1], sts[j]);
      StaysOff(sts[j - 1].c, acts[j - 1]);
    }
  }
}
