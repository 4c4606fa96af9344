/**
 No exchange can get stuck: whatever state it is in, once the link is lost, nothing succeeds any
 more and neither body is read any further, the goroutines of both sides come to their end by
 their timeouts, failures and clean-up alone.
 */
module HttpEnds {
  import opened Basics
  import opened Link
  import opened HttpExchange
  import HttpRuns

  /** A step that needs nobody's help: it takes no frame, and whatever it tries fails. */
  predicate Helpless(a: Act) {
    match a
    case SSend(ok) => !ok
    case SGet(n, ok) => n == 0 && !ok
    case STake(n, ok) => n == 0 && !ok
    case SClose(ok) => !ok
    case PSendHead(ok) => !ok
    case PSendClose(ok) => !ok
    case FStall(ok) => !ok
    case KRefuse(_, ok) => !ok
    case KFail(_, ok) => !ok
    case KNoSlot(_, ok) => !ok
    case KHeader(ok, _) => !ok
    case KFirst(ok) => !ok
    case KRead(b, _, _, failed) => b == [] && failed
    case KSendClose(ok) => !ok
    case STimeout | SIdleOut | SUnlist | SDone | PStop | FDrop | FCleanup | LStall | KUnlistCancel | KUnlistBody => true
    case _ => false
  }

  ghost predicate Chain(cs: seq<Http>, acts: seq<Act>) {
    && |cs| == |acts| + 1
    && forall i :: 0 <= i < |acts| ==> Helpless(acts[i]) && Effect(cs[i], acts[i]) == Just(cs[i + 1])
  }

  /** Such steps lead from one state to the other. */
  ghost predicate Leads(c: Http, n: Http) {
    exists cs, acts :: Chain(cs, acts) && cs[0] == c && cs[|acts|] == n
  }

  lemma {:induction false} Stays(c: Http)
    ensures Leads(c, c)
  {
    var cs, acts: seq<Act> := [c], [];
    assert Chain(cs, acts);
  }

  lemma {:induction false} Then(c: Http, n: Http, a: Act, m: Http)
    requires Leads(c, n) && Helpless(a) && Effect(n, a) == Just(m)
    ensures Leads(c, m)
  {
    hide Effect, Helpless;
    var cs, acts :| Chain(cs, acts) && cs[0] == c && cs[|acts|] == n;
    var cs', acts' := cs + [m], acts + [a];
    forall i | 0 <= i < |acts'| ensures Helpless(acts'[i]) && Effect(cs'[i], acts'[i]) == Just(cs'[i + 1]) {
      if i < |acts| {
        assert cs'[i] == cs[i] && cs'[i + 1] == cs[i + 1] && acts'[i] == acts[i];
      }
    }
    assert Chain(cs', acts') && cs'[0] == c && cs'[|acts'|] == m;
  }

  // ---- The server -----------------------------------------------------------

  /** The link is lost: the entry goes and its channel closes. */
  lemma {:induction false} LinkIsLost(c: Http, b: Http) returns (n: Http)
    requires Leads(c, b) && ServerTidy(b.s)
    ensures Leads(c, n) && ServerTidy(n.s) && n.s.phase == b.s.phase && n.s.pump == b.s.pump && n.k == b.k
    ensures !n.s.inbox.listed && n.s.inbox.queue == b.s.inbox.queue && n.s.inbox.hand == b.s.inbox.hand
    ensures b.s.inbox.listed ==> n.s.inbox.closed && n.s.inbox.done
  {
    hide Leads, ServeEffect, ClientEffect, ReplyEffect;
    n := b.(s := b.s.(inbox := CleanUp(b.s.inbox)), n := Fault(b.n, false));
    Then(c, b, FCleanup, n);
  }

  lemma {:induction false} LoopEnds(c: Http, b: Http) returns (n: Http)
    requires Leads(c, b)
    ensures Leads(c, n) && n.s.inbox.hand.None? && n.s.phase == b.s.phase && n.s.pump == b.s.pump && n.k == b.k
    ensures n.s.inbox.listed ==> b.s.inbox.listed
  {
    hide Inbox.Valid;
    hide Leads, ServeEffect, ClientEffect, ReplyEffect;
    n := b;
    if b.s.inbox.hand.Some? {
      var i := b.s.inbox;
      if i.done || i.closed {
        n := b.(s := b.s.(inbox := Drop(i)));
        Then(c, b, FDrop, n);
      } else {
        n := b.(s := b.s.(inbox := Stall(i)), n := Fault(b.n, false));
        Then(c, b, FStall(false), n);
      }
    }
  }

  /** Whatever it waits for, the handler gives up waiting. */
  lemma {:induction false} HandlerGivesUp(c: Http, b: Http) returns (n: Http)
    requires Leads(c, b) && b.s.phase != Idle && !Over(b.s.phase)
    ensures Leads(c, n) && n.s.phase == Leaving && n.s.pump == b.s.pump && n.k == b.k
    ensures n.s.inbox == b.s.inbox.(queue := n.s.inbox.queue, taken := n.s.inbox.taken)
  {
    hide Leads, Effect;
    n := b;
    if b.s.phase == Listed || b.s.phase == Await {
      n := AnswerIsMissed(c, b);
    } else {
      if b.s.phase == Relaying {
        n := ViewerIsLost(c, b);
      }
      n := CloseIsLost(c, n);
    }
  }

  /** The request is not sent, its response does not come or the viewer does not take it. */
  lemma {:induction false} AnswerIsMissed(c: Http, b: Http) returns (n: Http)
    requires Leads(c, b) && (b.s.phase == Listed || b.s.phase == Await)
    ensures Leads(c, n) && n.s == b.s.(phase := Leaving) && n.k == b.k
  {
    hide Leads, LoopEffect, ClientEffect, ReplyEffect;
    var r := b.s.resp;
    if b.s.phase == Await && r.Some? && r.value.Inline? {
      n := b.(s := b.s.(phase := Leaving), n := Fault(b.n, false),
              d := b.d.(seen := r, viewer := r.value.body[..0], torn := r.value.body[0..]));
      Then(c, b, SGet(0, false), n);
    } else {
      n := b.(s := b.s.(phase := Leaving), n := Fault(b.n, false));
      Then(c, b, if b.s.phase == Listed then SSend(false) else STimeout, n);
    }
  }

  /** The viewer does not take the next chunk, or there is none. */
  lemma {:induction false} ViewerIsLost(c: Http, b: Http) returns (n: Http)
    requires Leads(c, b) && b.s.phase == Relaying
    ensures Leads(c, n) && n.s.phase == Last && n.s.pump == b.s.pump && n.k == b.k
    ensures n.s.inbox == b.s.inbox.(queue := n.s.inbox.queue, taken := n.s.inbox.taken)
  {
    hide Inbox.Valid, Leads, LoopEffect, ClientEffect, ReplyEffect;
    var q := b.s.inbox.queue;
    if q == [] {
      n := b.(s := b.s.(phase := Last), n := Fault(b.n, false));
      Then(c, b, SIdleOut, n);
    } else {
      n := b.(s := b.s.(phase := Last, inbox := Take(b.s.inbox)), n := Fault(b.n, false),
              d := b.d.(viewer := b.d.viewer + q[0][..0], torn := b.d.torn + q[0][0..]));
      Then(c, b, STake(0, false), n);
    }
  }

  lemma {:induction false} CloseIsLost(c: Http, b: Http) returns (n: Http)
    requires Leads(c, b) && b.s.phase == Last
    ensures Leads(c, n) && n.s == b.s.(phase := Leaving) && n.k == b.k
  {
    hide Leads, LoopEffect, ClientEffect, ReplyEffect;
    n := b.(s := b.s.(phase := Leaving), n := Fault(b.n, false));
    Then(c, b, SClose(false), n);
  }

  lemma {:induction false} HandlerLeaves(c: Http, b: Http) returns (n: Http)
    requires Leads(c, b) && Over(b.s.phase) && (b.s.phase == Gone ==> b.s.inbox.done)
    requires b.s.phase != Leaving ==> !b.s.inbox.listed
    ensures Leads(c, n) && n.s.phase == Gone && n.s.inbox.done && !n.s.inbox.listed
    ensures n.s.inbox.hand == b.s.inbox.hand && n.s.pump == b.s.pump && n.k == b.k
  {
    hide Leads, LoopEffect, ClientEffect, ReplyEffect;
    var m := b;
    if b.s.phase == Leaving {
      m := b.(s := b.s.(phase := Unlisted, inbox := b.s.inbox.(listed := false)));
      Then(c, b, SUnlist, m);
    }
    n := m;
    if m.s.phase == Unlisted {
      n := m.(s := m.s.(phase := Gone, inbox := m.s.inbox.(done := true)));
      Then(c, m, SDone, n);
    }
  }

  /** Once its exchange is over the upload pump stops, without another read. */
  lemma {:induction false} PumpLeaves(c: Http, b: Http) returns (n: Http)
    requires Leads(c, b) && b.s.inbox.done
    ensures Leads(c, n) && (n.s.pump == NoPump || n.s.pump == PumpEnd)
    ensures n.s == b.s.(pump := n.s.pump) && n.k == b.k
  {
    hide Leads, ServeEffect, ClientEffect, ReplyEffect;
    var m := b;
    if b.s.pump == PumpHead {
      m := b.(s := b.s.(pump := PumpClose), n := Fault(b.n, false));
      Then(c, b, PSendHead(false), m);
    } else if b.s.pump == PumpLoop {
      m := b.(s := b.s.(pump := PumpClose));
      Then(c, b, PStop, m);
    }
    n := m;
    if m.s.pump == PumpClose {
      n := m.(s := m.s.(pump := PumpEnd), n := Fault(m.n, false));
      Then(c, m, PSendClose(false), n);
    }
  }

  /** A consumer that does not consume ends its stream on both sides: the entry goes, what is queued
      can still be taken, then its channel ends, and the client is told. */
  lemma {:induction false} StallTellsBoth(c: Http)
    requires c.s.inbox.hand.Some?
    ensures var e := Effect(c, FStall(true));
            && e.Some?
            && var o := e.value;
               && o.down == [Close] && o.up == [] && o.core.k == c.k && o.core.d == c.d
               && !o.core.s.inbox.listed && o.core.s.inbox.closed && o.core.s.inbox.hand.None?
               && o.core.s.inbox.queue == c.s.inbox.queue && o.core.s.inbox.taken == c.s.inbox.taken
  {
    hide Inbox.Valid;
  }

  // ---- The client -----------------------------------------------------------

  /** The client's loop and handler: the answer is refused, fails, or is given up half-way. */
  lemma {:induction false} ClientLoopEnds(c: Http, b: Http) returns (n: Http)
    requires Leads(c, b)
    ensures Leads(c, n) && n.k.hand.None? && n.k.phase == b.k.phase && n.k.cancel == b.k.cancel && n.s == b.s
    ensures n.k.body ==> b.k.body
  {
    hide Leads, ServeEffect, LoopEffect, ReplyEffect;
    n := b;
    if b.k.hand.Some? {
      n := b.(k := b.k.(hand := None, body := false), u := b.u.(aborted := true, closes := b.u.closes + 1),
              h := b.h.(missed := b.h.missed + [b.k.hand.value]), n := b.n.(stalled := true));
      Then(c, b, LStall, n);
    }
  }

  lemma {:induction false} AnswerFails(c: Http, b: Http) returns (n: Http)
    requires Leads(c, b) && (b.k.phase == Spawned || b.k.phase == Doing || b.k.phase == Slot)
    ensures Leads(c, n) && n.k == b.k.(phase := if b.k.phase == Spawned then Ended else Leave) && n.s == b.s
  {
    hide Leads, ServeEffect, LoopEffect, ClientEffect;
    var end := if b.k.phase == Spawned then Ended else Leave;
    n := b.(k := b.k.(phase := end), d := b.d.(res := Some(Inline([], false))), n := Fault(b.n, false));
    if b.k.phase == Spawned {
      Then(c, b, KRefuse([], false), n);
    } else if b.k.phase == Doing {
      Then(c, b, KFail([], false), n);
    } else {
      Then(c, b, KNoSlot([], false), n);
    }
  }

  lemma {:induction false} HeaderFails(c: Http, b: Http) returns (n: Http)
    requires Leads(c, b) && b.k.phase == Header
    ensures Leads(c, n) && n.k == b.k.(phase := First) && n.s == b.s
  {
    hide Leads, ServeEffect, LoopEffect, ClientEffect;
    n := b.(k := b.k.(phase := First), n := Fault(b.n, false), d := b.d.(res := Some(Streamed)));
    Then(c, b, KHeader(false, None), n);
  }

  lemma {:induction false} StreamStops(c: Http, b: Http) returns (n: Http)
    requires Leads(c, b) && (b.k.phase == First || b.k.phase == Pumping)
    ensures Leads(c, n) && n.k == b.k.(phase := Stop) && n.s == b.s
  {
    hide Leads, ServeEffect, LoopEffect, ClientEffect;
    if b.k.phase == Pumping {
      n := b.(k := b.k.(phase := Stop), d := b.d.(eof := false, broke := true));
      Then(c, b, KRead([], false, true, true), n);
    } else {
      n := if b.k.cancelCloses > 0 then b.(k := b.k.(phase := Stop), n := b.n.(skipped := true))
           else b.(k := b.k.(phase := Stop), n := Fault(b.n, false));
      Then(c, b, KFirst(false), n);
    }
  }

  lemma {:induction false} StreamLeaves(c: Http, b: Http) returns (n: Http)
    requires Leads(c, b) && (b.k.phase == Stop || b.k.phase == Uncancel)
    ensures Leads(c, n) && n.k == b.k.(phase := Leave, cancel := false) && n.s == b.s
  {
    hide Leads, ServeEffect, LoopEffect, ClientEffect;
    var m := b;
    if b.k.phase == Stop {
      m := b.(k := b.k.(phase := Uncancel), n := Fault(b.n, false));
      Then(c, b, KSendClose(false), m);
    }
    n := m.(k := m.k.(phase := Leave, cancel := false));
    Then(c, m, KUnlistCancel, n);
  }

  lemma {:induction false} AnswerLeaves(c: Http, b: Http) returns (n: Http)
    requires Leads(c, b) && b.k.phase == Leave
    ensures Leads(c, n) && n.k == b.k.(phase := Ended, body := false) && n.s == b.s
  {
    hide Leads, ServeEffect, LoopEffect, ClientEffect;
    n := b.(k := b.k.(phase := Ended, body := false));
    Then(c, b, KUnlistBody, n);
  }

  lemma {:induction false} ClientEnds(c: Http, b: Http) returns (n: Http)
    requires Leads(c, b) && ClientTidy(b.k)
    ensures Leads(c, n) && (n.k.phase == Absent || n.k.phase == Ended) && n.s == b.s
    ensures n.k.hand.None? && !n.k.body && !n.k.cancel
  {
    hide Leads;
    n := ClientLoopEnds(c, b);
    if n.k.phase == Spawned || n.k.phase == Doing || n.k.phase == Slot {
      n := AnswerFails(c, n);
    }
    if n.k.phase == Header {
      n := HeaderFails(c, n);
    }
    if n.k.phase == First || n.k.phase == Pumping {
      n := StreamStops(c, n);
    }
    if n.k.phase == Stop || n.k.phase == Uncancel {
      n := StreamLeaves(c, n);
    }
    if n.k.phase == Leave {
      n := AnswerLeaves(c, n);
    }
  }

  lemma {:induction false} ServerEnds(c: Http, b: Http) returns (n: Http)
    requires Leads(c, b) && ServerTidy(b.s)
    ensures Leads(c, n) && (n.s.phase == Idle || n.s.phase == Gone) && (n.s.pump == NoPump || n.s.pump == PumpEnd)
    ensures n.k == b.k && n.s.inbox.hand.None? && !n.s.inbox.listed
  {
    hide Leads;
    n := LinkIsLost(c, b);
    if b.s.phase != Idle {
      if !Over(n.s.phase) {
        n := HandlerGivesUp(c, n);
      }
      n := HandlerLeaves(c, n);
      n := PumpLeaves(c, n);
      n := LoopEnds(c, n);
    }
  }

  // ---- Every run ------------------------------------------------------------

  predicate ServerTidy(s: Server) {
    && (s.phase == Unlisted || s.phase == Gone ==> !s.inbox.listed) && (s.phase == Gone ==> s.inbox.done)
    && (s.phase == Idle ==> !s.inbox.listed && s.inbox.hand.None? && s.pump == NoPump)
  }

  predicate ClientTidy(k: Client) {
    && (k.body ==> k.phase != Absent && k.phase != Spawned && k.phase != Ended)
    && (k.cancel ==> Streaming(k.phase))
  }

  ghost predicate Tidy(c: Http) { ServerTidy(c.s) && ClientTidy(c.k) }

  lemma {:induction false} ServeTidy(c: Http, a: Act)
    requires Tidy(c) && ServeEffect(c, a).Some?
    ensures Tidy(ServeEffect(c, a).value.core)
  {
    hide Inbox.Valid, ClientTidy;
  }

  lemma {:induction false} LoopTidy(c: Http, a: Act)
    requires Tidy(c) && LoopEffect(c, a).Some?
    ensures Tidy(LoopEffect(c, a).value.core)
  {
    hide Inbox.Valid, ClientTidy;
  }

  lemma {:induction false} ClientLoopTidy(c: Http, a: Act)
    requires Tidy(c) && ClientEffect(c, a).Some?
    ensures Tidy(ClientEffect(c, a).value.core)
  {
    hide Inbox.Valid, ServerTidy;
  }

  lemma {:induction false} ReplyTidy(c: Http, a: Act)
    requires Tidy(c) && ReplyEffect(c, a).Some?
    ensures Tidy(ReplyEffect(c, a).value.core)
  {
    hide Inbox.Valid, ServerTidy;
  }

  lemma {:induction false} InitTidy(c: Http)
    requires c == Init(c.h.streamed, c.h.head)
    ensures Tidy(c)
  {
  }

  lemma {:induction false} RunTidy(sts: seq<HttpRuns.St>, acts: seq<Act>)
    requires HttpRuns.Run(sts, acts)
    ensures Tidy(sts[|acts|].c)
  {
    hide Tidy, ServeEffect, LoopEffect, ClientEffect, ReplyEffect, Takes;
    if acts == [] {
      InitTidy(sts[0].c);
    } else {
      var i := |acts| - 1;
      var c, a := sts[i].c, acts[i];
      assert HttpRuns.Step(sts[i], a, sts[i + 1]);
      assert HttpRuns.Run(sts[..i + 1], acts[..i]) by {
        hide HttpRuns.Step;
        assert forall j :: 0 <= j < i ==> acts[..i][j] == acts[j] && sts[..i + 1][j] == sts[j];
      }
      RunTidy(sts[..i + 1], acts[..i]);
      if IsServeAct(a) {
        ServeTidy(c, a);
      } else if IsClientAct(a) {
        ClientLoopTidy(c, a);
      } else if IsReplyAct(a) {
        ReplyTidy(c, a);
      } else {
        LoopTidy(c, a);
      }
    }
  }

  /** Wherever a run has got to, both sides can end from there without anybody's help, and the ID is
      then in no table. */
  lemma {:induction false} AlwaysEnds(sts: seq<HttpRuns.St>, acts: seq<Act>) returns (n: Http)
    requires HttpRuns.Run(sts, acts)
    ensures Leads(sts[|acts|].c, n)
    ensures (n.s.phase == Idle || n.s.phase == Gone) && (n.s.pump == NoPump || n.s.pump == PumpEnd)
    ensures n.k.phase == Absent || n.k.phase == Ended
    ensures n.s.inbox.hand.None? && n.k.hand.None? && !n.s.inbox.listed && !n.k.body && !n.k.cancel
  {
    hide Leads;
    var c := sts[|acts|].c;
    RunTidy(sts, acts);
    Stays(c);
    n := ServerEnds(c, c);
    n := ClientEnds(c, n);
  }

  // ---- What comes too late --------------------------------------------------

  /** The entry is out of the table, with this response or none. */
  predicate OffTable(s: Server, resp: Option<Response>) { s.inbox.made && !s.inbox.listed && s.resp == resp }

  lemma {:induction false} ServeOffTable(c: Http, a: Act)
    requires c.s.inbox.made && !c.s.inbox.listed && ServeEffect(c, a).Some?
    ensures OffTable(ServeEffect(c, a).value.core.s, c.s.resp)
  {
    hide Inbox.Valid;
  }

  lemma {:induction false} ClientOffTable(c: Http, a: Act)
    requires c.s.inbox.made && !c.s.inbox.listed && ClientEffect(c, a).Some?
    ensures OffTable(ClientEffect(c, a).value.core.s, c.s.resp)
  {
    hide Inbox.Valid;
  }

  lemma {:induction false} ReplyOffTable(c: Http, a: Act)
    requires c.s.inbox.made && !c.s.inbox.listed && ReplyEffect(c, a).Some?
    ensures OffTable(ReplyEffect(c, a).value.core.s, c.s.resp)
  {
    hide Inbox.Valid;
  }

  lemma {:induction false} LoopOffTable(c: Http, a: Act)
    requires c.s.inbox.made && !c.s.inbox.listed && LoopEffect(c, a).Some?
    ensures OffTable(LoopEffect(c, a).value.core.s, c.s.resp)
  {
    hide Inbox.Valid;
  }

  lemma {:induction false} StaysOff(c: Http, a: Act)
    requires c.s.inbox.made && !c.s.inbox.listed && Effect(c, a).Some?
    ensures OffTable(Effect(c, a).value.core.s, c.s.resp)
  {
    hide ServeEffect, LoopEffect, ClientEffect, ReplyEffect;
    if IsServeAct(a) {
      ServeOffTable(c, a);
    } else if IsClientAct(a) {
      ClientOffTable(c, a);
    } else if IsReplyAct(a) {
      ReplyOffTable(c, a);
    } else {
      LoopOffTable(c, a);
    }
  }

  lemma {:induction false} StepMoves(st: HttpRuns.St, a: Act, n: HttpRuns.St)
    requires HttpRuns.Step(st, a, n)
    ensures Effect(st.c, a).Some? && n.c == Effect(st.c, a).value.core
  {
    hide Effect, Takes;
  }

  /** Once an exchange's entry is out of the table, no response is taken for it any more. */
  lemma {:induction false} LateResponseIgnored(sts: seq<HttpRuns.St>, acts: seq<Act>, i: nat, j: nat)
    requires HttpRuns.Run(sts, acts) && i <= j < |sts| && sts[i].c.s.inbox.made && !sts[i].c.s.inbox.listed
    ensures OffTable(sts[j].c.s, sts[i].c.s.resp)
  {
    hide Effect, Takes, HttpRuns.Step;
    if i < j {
      LateResponseIgnored(sts, acts, i, j - 1);
      assert HttpRuns.Step(sts[j - 1], acts[j - 1], sts[j - 1 + 1]);
      StepMoves(sts[j - 1], acts[j - 1], sts[j]);
      StaysOff(sts[j - 1].c, acts[j - 1]);
    }
  }
}
