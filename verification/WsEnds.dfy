/**
 No upgraded connection can get stuck: whatever state it is in, once the link is lost and nothing
 succeeds any more, the goroutines of both sides come to their end without anybody's help.
 */
module WsEnds {
  import opened Basics
  import opened Link
  import opened WsRelay
  import WsRuns

  /** A step that needs nobody's help: it takes no frame, and whatever it tries fails. */
  predicate Helpless(a: Act) {
    match a
    case SSend(ok) => !ok
    case SGet(ok) => !ok
    case REnd(b) => b == []
    case RClose(ok) => !ok
    case DWrite(n, ok) => n == 0 && !ok
    case FStall(ok) => !ok
    case LWrite(n, ok) => n == 0 && !ok
    case KRefuse(_, ok) => !ok
    case KEnd(b) => b == []
    case KClose(ok) => !ok
    case STimeout | SLeave | SUnlist | SDone | DStop | FDrop | FCleanup | LShut | KRegister | KDone | KOff => true
    case _ => false
  }

  ghost predicate Chain(cs: seq<Ws>, acts: seq<Act>) {
    && |cs| == |acts| + 1
    && forall i :: 0 <= i < |acts| ==> Helpless(acts[i]) && Effect(cs[i], acts[i]) == Just(cs[i + 1])
  }

  /** Such steps lead from one state to the other. */
  ghost predicate Leads(c: Ws, n: Ws) {
    exists cs, acts :: Chain(cs, acts) && cs[0] == c && cs[|acts|] == n
  }

  lemma {:induction false} Stays(c: Ws)
    ensures Leads(c, c)
  {
    var cs, acts: seq<Act> := [c], [];
    assert Chain(cs, acts);
  }

  lemma {:induction false} Then(c: Ws, n: Ws, a: Act, m: Ws)
    requires Leads(c, n) && Helpless(a) && Effect(n, a) == Just(m)
    ensures Leads(c, m)
  {
    hide Effect, Helpless;
    var cs, acts :| Chain(cs, acts) && cs[0] == c && cs[|acts|] == n;
    var cs', acts' := cs + [m], acts + [a];
    forall i | 0 <= i < |acts'| ensures Helpless(acts'[i]) && Effect(cs'[i], acts'[i]) == Just(cs'[i + 1]) {
      if i < |acts| {
        assert cs'[i] == cs[i] && cs'[i + 1] == cs[i + 1] && acts'[i] == acts[i];
      }
    }
    assert Chain(cs', acts') && cs'[0] == c && cs'[|acts'|] == m;
  }

  // ---- The server -----------------------------------------------------------

  /** The link is lost: the entry goes and its channel closes. */
  lemma {:induction false} LinkIsLost(c: Ws, b: Ws) returns (n: Ws)
    requires Leads(c, b) && ServerTidy(b.s)
    ensures Leads(c, n) && ServerTidy(n.s) && !n.s.inbox.listed && n.s.phase == b.s.phase && n.k == b.k
    ensures n.s.inbox.hand == b.s.inbox.hand && n.s.inbox.queue == b.s.inbox.queue
    ensures b.s.inbox.listed ==> n.s.inbox.closed && n.s.inbox.done
  {
    hide Leads, ServeEffect, LocalEffect;
    n := b.(s := b.s.(inbox := CleanUp(b.s.inbox)));
    Then(c, b, FCleanup, n);
  }

  lemma {:induction false} LoopEnds(c: Ws, b: Ws) returns (n: Ws)
    requires Leads(c, b)
    ensures Leads(c, n) && n.s.inbox.hand.None? && n.k == b.k && (n.s.inbox.listed ==> b.s.inbox.listed)
    ensures n.s == b.s.(inbox := n.s.inbox)
  {
    hide Inbox.Valid;
    hide Leads, ServeEffect, LocalEffect;
    n := b;
    if b.s.inbox.hand.Some? {
      var i := b.s.inbox;
      if i.done || i.closed {
        n := b.(s := b.s.(inbox := Drop(i)));
        Then(c, b, FDrop, n);
      } else {
        n := b.(s := b.s.(inbox := Stall(i)));
        Then(c, b, FStall(false), n);
      }
    }
  }

  /** Before the upgrade. */
  lemma {:induction false} AskingFails(c: Ws, b: Ws) returns (n: Ws)
    requires Leads(c, b) && (b.s.phase == Listed || b.s.phase == Waiting)
    ensures Leads(c, n) && n.s == b.s.(phase := Leaving) && n.k == b.k
  {
    hide Leads, LoopEffect, LocalEffect;
    n := b.(s := b.s.(phase := Leaving));
    if b.s.phase == Listed {
      Then(c, b, SSend(false), n);
    } else if b.s.resp.Some? {
      Then(c, b, SGet(false), n);
    } else {
      Then(c, b, STimeout, n);
    }
  }

  lemma {:induction false} ReaderEnds(c: Ws, b: Ws) returns (n: Ws)
    requires Leads(c, b) && b.s.reader != NotYet
    ensures Leads(c, n) && n.s == b.s.(reader := Stopped) && n.k == b.k
  {
    hide Leads, LoopEffect, LocalEffect;
    var m := b;
    if b.s.reader == Running {
      m := b.(s := b.s.(reader := Closing), i := b.i.(read := b.i.read + [], unsent := b.i.unsent + []));
      Then(c, b, REnd([]), m);
    }
    n := m;
    if m.s.reader == Closing {
      n := m.(s := m.s.(reader := Stopped));
      Then(c, m, RClose(false), n);
    }
  }

  /** The drain waits for its channel only: closed, or not empty, it can end. */
  lemma {:induction false} DrainEnds(c: Ws, b: Ws) returns (n: Ws)
    requires Leads(c, b) && (b.s.drain == Running || b.s.drain == Stopped)
    requires b.s.drain == Running ==> b.s.inbox.closed
    ensures Leads(c, n) && n.s == b.s.(drain := Stopped, inbox := n.s.inbox) && n.k == b.k
    ensures n.s.inbox.listed == b.s.inbox.listed && n.s.inbox.hand == b.s.inbox.hand
    ensures n.s.inbox.done == b.s.inbox.done
  {
    hide Leads, LoopEffect, LocalEffect;
    n := b;
    if b.s.drain == Running {
      var q := b.s.inbox.queue;
      if q == [] {
        n := b.(s := b.s.(drain := Stopped));
        Then(c, b, DStop, n);
      } else {
        n := b.(s := b.s.(inbox := Take(b.s.inbox), drain := Stopped),
                o := b.o.(written := b.o.written + q[0][..0], torn := b.o.torn + q[0][0..]));
        Then(c, b, DWrite(0, false), n);
      }
    }
  }

  lemma {:induction false} HandlerLeaves(c: Ws, b: Ws) returns (n: Ws)
    requires Leads(c, b) && (b.s.phase == Leaving || b.s.phase == Unlisted || b.s.phase == Gone)
    requires !b.s.inbox.listed
    ensures Leads(c, n) && n.s.phase == Gone && !n.s.inbox.listed && n.k == b.k
    ensures n.s.reader == b.s.reader && n.s.drain == b.s.drain
  {
    hide Leads, LoopEffect, LocalEffect;
    var m := b;
    if b.s.phase == Leaving {
      m := b.(s := b.s.(phase := Unlisted));
      Then(c, b, SUnlist, m);
    }
    n := m;
    if m.s.phase == Unlisted {
      n := m.(s := m.s.(phase := Gone, inbox := m.s.inbox.(done := true)));
      Then(c, m, SDone, n);
    }
  }

  lemma {:induction false} RelayingEnds(c: Ws, b: Ws) returns (n: Ws)
    requires Leads(c, b) && ServerTidy(b.s) && b.s.phase == Relaying && !b.s.inbox.listed
    ensures Leads(c, n) && n.s.phase == Leaving && n.k == b.k && !n.s.inbox.listed
    ensures n.s.reader == Stopped && n.s.drain == Stopped
  {
    n := ReaderEnds(c, b);
    n := DrainEnds(c, n);
    hide Leads, LoopEffect, LocalEffect;
    var m := n;
    n := m.(s := m.s.(phase := Leaving));
    Then(c, m, SLeave, n);
  }

  lemma {:induction false} ServerEnds(c: Ws, b: Ws) returns (n: Ws)
    requires Leads(c, b) && ServerTidy(b.s)
    ensures Leads(c, n) && (n.s.phase == Idle || n.s.phase == Gone) && Quiet(n.s) && n.k == b.k
    ensures n.s.inbox.hand.None? && !n.s.inbox.listed
  {
    hide Leads;
    n := LinkIsLost(c, b);
    if n.s.phase == Listed || n.s.phase == Waiting {
      n := AskingFails(c, n);
    }
    if n.s.phase == Relaying {
      n := RelayingEnds(c, n);
    }
    if n.s.phase != Idle {
      n := HandlerLeaves(c, n);
    }
    n := LoopEnds(c, n);
  }

  /** A consumer that does not consume ends its stream on both sides: the entry goes, what is queued
      can still be taken, then its channel ends, and the client is told. */
  lemma {:induction false} StallTellsBoth(c: Ws)
    requires c.s.inbox.hand.Some?
    ensures var e := Effect(c, FStall(true));
            && e.Some?
            && var o := e.value;
               && o.down == [Close] && o.up == [] && o.core.k == c.k
               && !o.core.s.inbox.listed && o.core.s.inbox.closed && o.core.s.inbox.hand.None?
               && o.core.s.inbox.queue == c.s.inbox.queue && o.core.s.inbox.taken == c.s.inbox.taken
  {
    hide Inbox.Valid;
  }

  // ---- The client -----------------------------------------------------------

  /** The tunnel is closed: from then on nothing is written to the local connection but what is
      being written. */
  lemma {:induction false} TunnelCloses(c: Ws, b: Ws) returns (n: Ws)
    requires Leads(c, b)
    ensures Leads(c, n) && !n.k.relay && !Live(n.k) && (b.k.relay ==> n.k.done)
    ensures n.k.phase == b.k.phase && n.k.hand == b.k.hand && n.s == b.s
  {
    hide Leads, ServeEffect, LocalEffect;
    n := b.(k := b.k.(relay := false, done := b.k.done || b.k.relay));
    Then(c, b, LShut, n);
  }

  lemma {:induction false} WriteFails(c: Ws, b: Ws) returns (n: Ws)
    requires Leads(c, b)
    ensures Leads(c, n) && n.k.hand.None? && n.k.phase == b.k.phase && n.k.relay == b.k.relay && n.s == b.s
  {
    hide Leads, ServeEffect, LocalEffect;
    n := b;
    if b.k.hand.Some? {
      var v := b.k.hand.value;
      n := b.(i := b.i.(written := b.i.written + v[..0], torn := b.i.torn + v[0..]),
              k := b.k.(hand := None, done := true));
      Then(c, b, LWrite(0, false), n);
    }
  }

  lemma {:induction false} UpgradeFails(c: Ws, b: Ws) returns (n: Ws)
    requires Leads(c, b) && (b.k.phase == Spawned || b.k.phase == Switched)
    ensures Leads(c, n) && (n.k.phase == Ended || n.k.phase == Reading) && n.k.hand == b.k.hand && n.s == b.s
    ensures n.k.phase == Ended ==> n.k.relay == b.k.relay
  {
    hide Leads, ServeEffect, LoopEffect;
    if b.k.phase == Spawned {
      n := b.(k := b.k.(phase := Ended));
      Then(c, b, KRefuse([], false), n);
    } else {
      n := b.(k := b.k.(phase := Reading, relay := true, everRelay := true));
      Then(c, b, KRegister, n);
    }
  }

  lemma {:induction false} ReadFails(c: Ws, b: Ws) returns (n: Ws)
    requires Leads(c, b) && (b.k.phase == Reading || b.k.phase == Exiting)
    ensures Leads(c, n) && n.k == b.k.(phase := ExitDone, done := true) && n.s == b.s
  {
    hide Leads, ServeEffect, LoopEffect;
    var m := b;
    if b.k.phase == Reading {
      m := b.(k := b.k.(phase := Exiting), o := b.o.(read := b.o.read + [], unsent := b.o.unsent + []));
      Then(c, b, KEnd([]), m);
    }
    n := m.(k := m.k.(phase := ExitDone, done := true));
    Then(c, m, KDone, n);
  }

  lemma {:induction false} ClientLeaves(c: Ws, b: Ws) returns (n: Ws)
    requires Leads(c, b) && (b.k.phase == ExitDone || b.k.phase == ExitOff) && (b.k.phase == ExitOff ==> !b.k.relay)
    ensures Leads(c, n) && n.k == b.k.(phase := Ended, relay := false) && n.s == b.s
  {
    hide Leads, ServeEffect, LoopEffect;
    var m := b;
    if b.k.phase == ExitDone {
      m := b.(k := b.k.(phase := ExitOff, relay := false));
      Then(c, b, KOff, m);
    }
    n := m.(k := m.k.(phase := Ended));
    Then(c, m, KClose(false), n);
  }

  lemma {:induction false} ClientEnds(c: Ws, b: Ws) returns (n: Ws)
    requires Leads(c, b)
    ensures Leads(c, n) && (n.k.phase == Absent || n.k.phase == Ended) && n.s == b.s
    ensures n.k.hand.None? && !n.k.relay
  {
    hide Leads;
    n := TunnelCloses(c, b);
    n := WriteFails(c, n);
    if n.k.phase == Spawned || n.k.phase == Switched {
      n := UpgradeFails(c, n);
    }
    if n.k.phase == Reading || n.k.phase == Exiting {
      n := ReadFails(c, n);
    }
    if n.k.phase == ExitDone || n.k.phase == ExitOff {
      n := ClientLeaves(c, n);
    }
  }

  // ---- Every run ------------------------------------------------------------

  /** Neither goroutine is running. */
  predicate Quiet(s: Server) {
    (s.reader == NotYet || s.reader == Stopped) && (s.drain == NotYet || s.drain == Stopped)
  }

  /** The goroutines run while the handler relays; a drain whose entry is gone has its channel
      closed. */
  predicate ServerTidy(s: Server) {
    && (s.phase == Relaying ==> s.reader != NotYet && s.drain != NotYet)
    && (s.phase != Relaying ==> Quiet(s)) && s.drain != Closing
    && (s.phase == Listed || s.phase == Waiting || s.phase == Relaying ==> s.inbox.listed || s.inbox.closed)
    && (s.phase == Idle ==> !s.inbox.listed)
    && (s.reader != NotYet ==> s.resp == Some(Switching))
  }

  lemma {:induction false} StepTidy(c: Ws, a: Act)
    requires ServerTidy(c.s) && Effect(c, a).Some?
    ensures ServerTidy(Effect(c, a).value.core.s)
  {
    hide Inbox.Valid;
  }

  ghost predicate Moves(c: Ws, a: Act, n: Ws) { Effect(c, a).Some? && Effect(c, a).value.core == n }

  /** Any run, faults or not. */
  ghost predicate Run(cs: seq<Ws>, acts: seq<Act>) {
    && |cs| == |acts| + 1 && cs[0] == Init()
    && forall i :: 0 <= i < |acts| ==> Moves(cs[i], acts[i], cs[i + 1])
  }

  lemma {:induction false} RunTidy(cs: seq<Ws>, acts: seq<Act>, i: nat)
    requires Run(cs, acts) && i < |cs|
    ensures ServerTidy(cs[i].s)
  {
    hide Effect;
    if i > 0 {
      hide ServerTidy;
      RunTidy(cs, acts, i - 1);
      assert Moves(cs[i - 1], acts[i - 1], cs[i - 1 + 1]);
      StepTidy(cs[i - 1], acts[i - 1]);
    }
  }

  /** Wherever a run has got to, whatever it failed at, both sides can end from there without
      anybody's help, and the ID is then in no table. */
  lemma {:induction false} AlwaysEnds(cs: seq<Ws>, acts: seq<Act>) returns (n: Ws)
    requires Run(cs, acts)
    ensures Leads(cs[|acts|], n)
    ensures (n.s.phase == Idle || n.s.phase == Gone) && Quiet(n.s) && (n.k.phase == Absent || n.k.phase == Ended)
    ensures n.s.inbox.hand.None? && n.k.hand.None? && !n.s.inbox.listed && !n.k.relay
  {
    hide Leads;
    var c := cs[|acts|];
    RunTidy(cs, acts, |acts|);
    hide Run, ServerTidy;
    Stays(c);
    n := ServerEnds(c, c);
    n := ClientEnds(c, n);
  }

  // ---- A refused upgrade ----------------------------------------------------

  /** In every run the connection is taken over only on a switch of protocols. */
  lemma {:induction false} OnlySwitched(cs: seq<Ws>, acts: seq<Act>)
    requires Run(cs, acts)
    ensures cs[|acts|].s.phase == Relaying ==> cs[|acts|].s.resp == Some(Switching)
  {
    RunTidy(cs, acts, |acts|);
    hide Run;
  }

  ghost predicate Linked(sts: seq<WsRuns.St>, acts: seq<Act>) {
    && |sts| == |acts| + 1 && sts[0] == WsRuns.St(Init(), [], [])
    && forall i :: 0 <= i < |acts| ==> WsRuns.Step(sts[i], acts[i], sts[i + 1])
  }

  /** Some run, faults or not, gets there. */
  ghost predicate Arrives(st: WsRuns.St) { exists sts, acts :: Linked(sts, acts) && sts[|acts|] == st }

  lemma {:induction false} Goes(st: WsRuns.St, a: Act, n: WsRuns.St)
    requires Arrives(st) && WsRuns.Step(st, a, n)
    ensures Arrives(n)
  {
    hide WsRuns.Step;
    var sts, acts :| Linked(sts, acts) && sts[|acts|] == st;
    var s', a' := sts + [n], acts + [a];
    forall i | 0 <= i < |a'| ensures WsRuns.Step(s'[i], a'[i], s'[i + 1]) {
      if i < |acts| {
        assert s'[i] == sts[i] && s'[i + 1] == sts[i + 1] && a'[i] == acts[i];
      }
    }
    assert Linked(s', a') && s'[|a'|] == n;
  }

  lemma {:induction false} Refuses(e: Bytes) returns (c: Ws)
    ensures Arrives(WsRuns.St(c, [], [Res(Inline(e, false))]))
    ensures c.s == WsRuns.Asked().s && c.k.phase == Ended && !c.k.relay
  {
    WsRuns.Asks();
    var a := WsRuns.Asked();
    assert Arrives(WsRuns.St(a, [Req(true)], [])) by {
      hide WsRuns.Step;
      var sts, acts :| WsRuns.Run(sts, acts) && sts[|acts|] == WsRuns.St(a, [Req(true)], []);
      assert Linked(sts, acts);
    }
    hide Arrives, ServeEffect;
    var b := a.(k := a.k.(phase := Spawned));
    assert [Req(true)][1..] == [];
    Goes(WsRuns.St(a, [Req(true)], []), LReq, WsRuns.St(b, [], []));
    c := b.(k := b.k.(phase := Ended));
    assert [] + [Res(Inline(e, false))] == [Res(Inline(e, false))];
    Goes(WsRuns.St(b, [], []), KRefuse(e, true), WsRuns.St(c, [], [Res(Inline(e, false))]));
  }

  /** The client's refusal reaches the handler, which leaves without taking the connection over. */
  lemma {:induction false} RefusalIsHeard(e: Bytes) returns (n: Ws)
    ensures Arrives(WsRuns.St(n, [], [])) && n.s.phase == Leaving && n.s.resp == Some(Inline(e, false))
    ensures n.s.reader == NotYet && n.s.drain == NotYet && n.k.phase == Ended
  {
    var c := Refuses(e);
    hide Arrives, LocalEffect;
    var r := Inline(e, false);
    var m := c.(s := c.s.(resp := Some(r)));
    assert [Res(r)][1..] == [];
    Goes(WsRuns.St(c, [], [Res(r)]), FRes(r, true), WsRuns.St(m, [], []));
    n := m.(s := m.s.(phase := Leaving));
    Goes(WsRuns.St(m, [], []), SGet(true), WsRuns.St(n, [], []));
  }

  // ---- What comes too late --------------------------------------------------

  /** The entry is out of the table, with this response or none. */
  predicate OffTable(s: Server, resp: Option<Response>) { s.inbox.made && !s.inbox.listed && s.resp == resp }

  lemma {:induction false} StaysOff(c: Ws, a: Act)
    requires c.s.inbox.made && !c.s.inbox.listed && Effect(c, a).Some?
    ensures OffTable(Effect(c, a).value.core.s, c.s.resp)
  {
    hide Inbox.Valid;
  }

  /** Once the entry is out of the table, no response is taken for it any more. */
  lemma {:induction false} LateResponseIgnored(cs: seq<Ws>, acts: seq<Act>, i: nat, j: nat)
    requires Run(cs, acts) && i <= j < |cs| && cs[i].s.inbox.made && !cs[i].s.inbox.listed
    ensures OffTable(cs[j].s, cs[i].s.resp)
  {
    hide Effect;
    if i < j {
      LateResponseIgnored(cs, acts, i, j - 1);
      assert Moves(cs[j - 1], acts[j - 1], cs[j - 1 + 1]);
      StaysOff(cs[j - 1], acts[j - 1]);
    }
  }
}
