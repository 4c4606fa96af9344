/**
 Whole runs of one exchange. A run without a faulty step ends well; and some runs show why
 more cannot be said: an upload chunk that comes before its stream is registered is lost, a
 late end of an upload cancels the response, and a close frame does not tell the end of an
 upload or of a response from its failure.
 */
module HttpRuns {
  import opened Basics
  import opened Link
  import opened HttpExchange
  import HttpComplete

  datatype St = St(c: Http, down: seq<Msg>, up: seq<Msg>)

  ghost predicate Step(st: St, a: Act, n: St) {
    && Effect(st.c, a).Some? && Arrived(Takes(a), st.down, st.up)
    && var o := Effect(st.c, a).value;
       n == St(o.core, After(st.down, Takes(a).FromDown?, o.down), After(st.up, Takes(a).FromUp?, o.up))
  }

  ghost predicate Run(sts: seq<St>, acts: seq<Act>) {
    && |sts| == |acts| + 1 && sts[0] == St(Init(sts[0].c.h.streamed, sts[0].c.h.head), [], [])
    && forall i :: 0 <= i < |acts| ==> Step(sts[i], acts[i], sts[i + 1])
  }

  /** Something fails, times out or is refused, other than a read of a body or an upload nobody
      reads. */
  predicate Breaks(a: Act) {
    match a
    case SSend(ok) => !ok
    case SGet(_, ok) => !ok
    case STake(_, ok) => !ok
    case SClose(ok) => !ok
    case PSendHead(ok) => !ok
    case PRead(_, ok, _, _) => !ok
    case FRes(_, decodes) => !decodes
    case PSendClose(ok) => !ok
    case KInline(_, ok, broken) => !ok || broken.Some?
    case KHeader(ok, broken) => !ok || broken.Some?
    case KFirst(ok) => !ok
    case KRead(_, ok, _, _) => !ok
    case KSendClose(ok) => !ok
    case STimeout | SIdleOut | FStall(_) | FCleanup | KRefuse(_, _) | KFail(_, _) | KNoSlot(_, _) => true
    case _ => false
  }

  /** A read of the viewer's body, or of the local one, fails. */
  predicate ViewerBreaks(a: Act) { a.PRead? && a.failed }

  predicate LocalBreaks(a: Act) { a.KRead? && a.failed }

  predicate Faulty(a: Act) { Breaks(a) || ViewerBreaks(a) || LocalBreaks(a) || a.LStall? }

  /** A chunk of the response is not sent, the response having been cancelled: a close frame was
      handled while the exchange had no body stream but a cancel signal listed. */
  predicate Skips(c: Http, a: Act) { (a.KFirst? || (a.KRead? && a.b != [])) && c.k.cancelCloses > 0 }

  // ---- Runs without a break ------------------------------------------------

  /** What a step adds to the histories. */
  ghost predicate Noted(c: Http, a: Act, n: Http) {
    && n.n.clean == c.n.clean && n.n.stalled == (c.n.stalled || a.LStall?)
    && n.n.skipped == (c.n.skipped || Skips(c, a))
    && n.d.broke == (c.d.broke || LocalBreaks(a)) && n.h.broke == (c.h.broke || ViewerBreaks(a))
  }

  lemma {:induction false} ServeNoted(c: Http, a: Act)
    requires ServeEffect(c, a).Some? && !Breaks(a)
    ensures Noted(c, a, ServeEffect(c, a).value.core)
  {
    hide Flat, Inbox.Valid;
  }

  lemma {:induction false} LoopNoted(c: Http, a: Act)
    requires LoopEffect(c, a).Some? && !Breaks(a)
    ensures Noted(c, a, LoopEffect(c, a).value.core)
  {
    hide Flat, Inbox.Valid;
  }

  lemma {:induction false} ClientNoted(c: Http, a: Act)
    requires ClientEffect(c, a).Some? && !Breaks(a)
    ensures Noted(c, a, ClientEffect(c, a).value.core)
  {
    hide Flat, Inbox.Valid;
  }

  lemma {:induction false} ReplyNoted(c: Http, a: Act)
    requires ReplyEffect(c, a).Some? && !Breaks(a)
    ensures Noted(c, a, ReplyEffect(c, a).value.core)
  {
    hide Flat, Inbox.Valid;
  }

  lemma {:induction false} StepNoted(c: Http, a: Act)
    requires Effect(c, a).Some? && !Breaks(a)
    ensures Noted(c, a, Effect(c, a).value.core)
  {
    hide Breaks, Noted, ServeEffect, LoopEffect, ClientEffect, ReplyEffect;
    if IsServeAct(a) {
      ServeNoted(c, a);
    } else if IsClientAct(a) {
      ClientNoted(c, a);
    } else if IsReplyAct(a) {
      ReplyNoted(c, a);
    } else {
      LoopNoted(c, a);
    }
  }

  ghost predicate Unbroken(acts: seq<Act>) { forall j :: 0 <= j < |acts| ==> !Breaks(acts[j]) }

  ghost predicate NoStall(acts: seq<Act>) { forall j :: 0 <= j < |acts| ==> !acts[j].LStall? }

  ghost predicate LocalReads(acts: seq<Act>) { forall j :: 0 <= j < |acts| ==> !LocalBreaks(acts[j]) }

  ghost predicate ViewerReads(acts: seq<Act>) { forall j :: 0 <= j < |acts| ==> !ViewerBreaks(acts[j]) }

  ghost predicate NoneSkipped(sts: seq<St>, acts: seq<Act>)
    requires |sts| > |acts|
  {
    forall j :: 0 <= j < |acts| ==> !Skips(sts[j].c, acts[j])
  }

  lemma {:induction false} RunGood(sts: seq<St>, acts: seq<Act>)
    requires Run(sts, acts)
    ensures var st := sts[|acts|];
            && HttpComplete.Good(st.c, st.down, st.up)
            && (Unbroken(acts) ==>
                  && st.c.n.clean && (st.c.n.stalled <==> !NoStall(acts))
                  && (st.c.n.skipped <==> !NoneSkipped(sts, acts))
                  && (st.c.d.broke <==> !LocalReads(acts)) && (st.c.h.broke <==> !ViewerReads(acts)))
  {
    hide HttpComplete.Good, Effect, Takes, Breaks, Skips, LocalBreaks, ViewerBreaks;
    if acts == [] {
      HttpComplete.InitGood(sts[0].c.h.streamed, sts[0].c.h.head);
    } else {
      var i := |acts| - 1;
      var st, a := sts[i], acts[i];
      assert Step(st, a, sts[i + 1]);
      assert Run(sts[..i + 1], acts[..i]) by {
        hide Step;
        assert forall j :: 0 <= j < i ==> acts[..i][j] == acts[j] && sts[..i + 1][j] == sts[j];
      }
      RunGood(sts[..i + 1], acts[..i]);
      assert acts == acts[..i] + [a];
      HttpComplete.StepGood(st.c, a, st.down, st.up);
      if !Breaks(a) {
        StepNoted(st.c, a);
      }
    }
  }

  /** In a run that breaks nowhere, reads failing and uploads stalling though they may, a finished
      exchange has shown its viewer all that was read of the local body if and only if no chunk
      was skipped, and that is the whole body if and only if no read of it failed either. Where
      no upload stalls, no chunk is skipped. */
  lemma {:induction false} ResponseIff(sts: seq<St>, acts: seq<Act>)
    requires Run(sts, acts) && Unbroken(acts) && Over(sts[|acts|].c.s.phase)
    ensures sts[|acts|].c.d.viewer == sts[|acts|].c.d.body <==> NoneSkipped(sts, acts)
    ensures sts[|acts|].c.d.eof <==> LocalReads(acts) && NoneSkipped(sts, acts)
    ensures NoStall(acts) ==> NoneSkipped(sts, acts)
  {
    hide HttpComplete.Good, Step, Unbroken, NoStall, NoneSkipped, LocalReads, ViewerReads, Over;
    var st := sts[|acts|];
    RunGood(sts, acts);
    HttpComplete.ViewerGetsIff(st.c, st.down, st.up);
  }

  /** Where no upload stalls, when a local application has read its upload to a clean end before it
      answers, it has read all that was read of the viewer's body if and only if no chunk came
      before its stream was registered, and that is the whole body if and only if no read of it
      failed. */
  lemma {:induction false} UploadIff(sts: seq<St>, acts: seq<Act>)
    requires Run(sts, acts) && Unbroken(acts) && NoStall(acts)
    requires Unsent(sts[|acts|].c.k.phase) && sts[|acts|].c.u.end == Eof && sts[|acts|].c.h.head != []
    ensures var h := sts[|acts|].c.h;
            (sts[|acts|].c.u.got == h.head + h.rest <==> h.lost == 0) && (h.eof <==> ViewerReads(acts))
  {
    hide HttpComplete.Good, Step, Unbroken, NoStall, NoneSkipped, LocalReads, ViewerReads, Unsent;
    var st := sts[|acts|];
    RunGood(sts, acts);
    HttpComplete.NotCutShort(st.c, st.down, st.up);
    HttpComplete.UploadExact(st.c, st.down, st.up);
  }

  /** Without a faulty step a finished exchange has shown its viewer the whole local body. */
  lemma {:induction false} FaultFreeResponse(sts: seq<St>, acts: seq<Act>)
    requires Run(sts, acts) && (forall j :: 0 <= j < |acts| ==> !Faulty(acts[j])) && Over(sts[|acts|].c.s.phase)
    ensures sts[|acts|].c.d.eof && sts[|acts|].c.d.viewer == sts[|acts|].c.d.body
  {
    hide Step, Over, Run, Breaks, Skips;
    ResponseIff(sts, acts);
  }

  /** Without a faulty step, when a local application has read its upload to a clean end before
      it answers, the viewer's body was read to its end; and the application has read all of
      it if and only if no chunk came before its stream was registered. */
  lemma {:induction false} FaultFreeUpload(sts: seq<St>, acts: seq<Act>)
    requires Run(sts, acts) && (forall j :: 0 <= j < |acts| ==> !Faulty(acts[j]))
    requires Unsent(sts[|acts|].c.k.phase) && sts[|acts|].c.u.end == Eof && sts[|acts|].c.h.head != []
    ensures var c := sts[|acts|].c; c.h.eof && (c.u.got == c.h.head + c.h.rest <==> c.h.lost == 0)
  {
    hide Step, Unsent, Run, Breaks, Skips;
    UploadIff(sts, acts);
  }

  // ---- Showing runs -----------------------------------------------------

  /** A run gets there with no faulty step but `but`. */
  ghost predicate Reached(st: St, but: set<Act>) {
    exists sts, acts :: Run(sts, acts) && sts[|acts|] == st && AllBut(acts, but)
  }

  ghost predicate AllBut(acts: seq<Act>, but: set<Act>) {
    forall i :: 0 <= i < |acts| && Faulty(acts[i]) ==> acts[i] in but
  }

  lemma {:induction false} Begins(streamed: bool, head: Bytes, but: set<Act>)
    ensures Reached(St(Init(streamed, head), [], []), but)
  {
    var sts, acts: seq<Act> := [St(Init(streamed, head), [], [])], [];
    assert Run(sts, acts) && AllBut(acts, but);
  }

  lemma {:induction false} Extends(st: St, a: Act, n: St, but: set<Act>)
    requires Reached(st, but) && Step(st, a, n) && (Faulty(a) ==> a in but)
    ensures Reached(n, but)
  {
    hide Step, Faulty;
    var sts, acts :| Run(sts, acts) && sts[|acts|] == st && AllBut(acts, but);
    var s', a' := sts + [n], acts + [a];
    forall i | 0 <= i < |a'| ensures Step(s'[i], a'[i], s'[i + 1]) {
      if i < |acts| {
        assert s'[i] == sts[i] && s'[i + 1] == sts[i + 1] && a'[i] == acts[i];
      }
    }
    assert Run(s', a') && AllBut(a', but) && s'[|a'|] == n;
  }

  /** A step that touches no link. */
  lemma {:induction false} Silent(c: Http, a: Act, n: Http, down: seq<Msg>, up: seq<Msg>, but: set<Act>)
    requires Reached(St(c, down, up), but) && (Faulty(a) ==> a in but)
    requires Takes(a) == Nothing && Effect(c, a) == Just(n)
    ensures Reached(St(n, down, up), but)
  {
    hide Reached, Effect, Takes, Faulty;
    Extends(St(c, down, up), a, St(n, down, up), but);
  }

  lemma {:induction false} SendsDown(c: Http, a: Act, n: Http, m: Msg, down: seq<Msg>, up: seq<Msg>, but: set<Act>)
    requires Reached(St(c, down, up), but) && (Faulty(a) ==> a in but)
    requires Takes(a) == Nothing && Effect(c, a) == Some(Out(n, [m], []))
    ensures Reached(St(n, down + [m], up), but)
  {
    hide Reached, Effect, Takes, Faulty;
    Extends(St(c, down, up), a, St(n, down + [m], up), but);
  }

  lemma {:induction false} SendsUp(c: Http, a: Act, n: Http, m: Msg, down: seq<Msg>, up: seq<Msg>, but: set<Act>)
    requires Reached(St(c, down, up), but) && (Faulty(a) ==> a in but)
    requires Takes(a) == Nothing && Effect(c, a) == Some(Out(n, [], [m]))
    ensures Reached(St(n, down, up + [m]), but)
  {
    hide Reached, Effect, Takes, Faulty;
    Extends(St(c, down, up), a, St(n, down, up + [m]), but);
  }

  lemma {:induction false} TakesDown(c: Http, a: Act, n: Http, m: Msg, down: seq<Msg>, up: seq<Msg>, but: set<Act>)
    requires Reached(St(c, [m] + down, up), but) && (Faulty(a) ==> a in but)
    requires Takes(a) == FromDown(m) && Effect(c, a) == Just(n)
    ensures Reached(St(n, down, up), but)
  {
    hide Reached, Effect, Takes, Faulty;
    assert ([m] + down)[1..] == down;
    Extends(St(c, [m] + down, up), a, St(n, down, up), but);
  }

  lemma {:induction false} TakesUp(c: Http, a: Act, n: Http, m: Msg, down: seq<Msg>, up: seq<Msg>, but: set<Act>)
    requires Reached(St(c, down, [m] + up), but) && (Faulty(a) ==> a in but)
    requires Takes(a) == FromUp(m) && Effect(c, a) == Just(n)
    ensures Reached(St(n, down, up), but)
  {
    hide Reached, Effect, Takes, Faulty;
    assert ([m] + up)[1..] == up;
    Extends(St(c, down, [m] + up), a, St(n, down, up), but);
  }

  // ---- An early chunk is lost -------------------------------------------

  function Sending(head: Bytes): Http {
    Http(Server(Await, EMPTY_INBOX.(made := true, listed := true), None, PumpLoop),
         Client(Absent, false, false, 0, None),
         Upload(false, [], 0, false, [], [], Open), Reply([], false, false, [], [], None, None, [], []),
         Sent(true, head, [], false, false, [head], [], [], 0, [], []), Notes(true, false, false, 0, false))
  }

  /** The request and the first chunk are under way. */
  lemma {:induction false} UploadStarts(head: Bytes, but: set<Act>)
    ensures Reached(St(Sending(head), [Req(false)] + [Data(head)], []), but)
  {
    hide Reached;
    var c := Init(true, head);
    var c1 := c.(s := c.s.(phase := Listed, inbox := EMPTY_INBOX.(made := true, listed := true)));
    var c2 := c1.(s := c1.s.(phase := Await, pump := PumpHead));
    Begins(true, head, but);
    Silent(c, SList, c1, [], [], but);
    SendsDown(c1, SSend(true), c2, Req(false), [], [], but);
    assert [] + [Req(false)] == [Req(false)] && c2.h.sent + [head] == [head];
    SendsDown(c2, PSendHead(true), Sending(head), Data(head), [Req(false)], [], but);
  }

  function Registered(head: Bytes, early: bool): Http {
    var c := Sending(head);
    c.(k := c.k.(phase := Doing, body := true), u := c.u.(made := true),
       h := if early then c.h.(handled := [head], lost := 1) else c.h)
  }

  lemma {:induction false} RequestArrives(head: Bytes, but: set<Act>)
    ensures var c := Sending(head); Reached(St(c.(k := c.k.(phase := Spawned)), [Data(head)] + [], []), but)
  {
    UploadStarts(head, but);
    hide Reached, ServeEffect, LoopEffect, ReplyEffect;
    var c := Sending(head);
    assert [Data(head)] + [] == [Data(head)];
    TakesDown(c, LReq, c.(k := c.k.(phase := Spawned)), Req(false), [Data(head)], [], but);
  }

  lemma {:induction false} ChunkDropped(head: Bytes)
    ensures Reached(St(Registered(head, true), [], []), {})
  {
    RequestArrives(head, {});
    hide Reached, ServeEffect, LoopEffect;
    var s := Sending(head);
    var c := s.(k := s.k.(phase := Spawned));
    var c1 := c.(h := c.h.(handled := [head], lost := 1));
    assert c.h.handled + [head] == [head];
    TakesDown(c, LData(head), c1, Data(head), [], [], {});
    Silent(c1, KBegin, Registered(head, true), [], [], {});
  }

  /** The pump reads no more, its body ended or reading it failed, and closes. */
  lemma {:induction false} PumpEnds(c: Http, failed: bool, up: seq<Msg>, but: set<Act>)
    requires Reached(St(c, [], up), but) && c.s.pump == PumpLoop && !c.h.broke
    requires failed ==> PRead([], true, true, true) in but
    ensures Reached(St(c.(s := c.s.(pump := PumpEnd), h := c.h.(eof := !failed, broke := failed)), [Close] + [], up),
                    but)
  {
    hide Reached, ServeEffect, ClientEffect, ReplyEffect, Inbox.Valid;
    var c1 := c.(s := c.s.(pump := PumpClose), h := c.h.(eof := !failed, broke := failed));
    Silent(c, PRead([], true, true, failed), c1, [], up, but);
    assert [] + [Close] == [Close] + [];
    SendsDown(c1, PSendClose(true), c1.(s := c.s.(pump := PumpEnd)), Close, [], up, but);
  }

  function RestQueued(head: Bytes, rest: Bytes): Http {
    var c := Registered(head, true);
    c.(s := c.s.(pump := PumpEnd), u := c.u.(queue := [rest]),
       h := c.h.(rest := rest, eof := true, sent := [head, rest], handled := [head, rest], queued := [rest]))
  }

  /** The pump reads a last chunk and closes. */
  lemma {:induction false} LastChunkSent(c: Http, b: Bytes, but: set<Act>)
    requires Reached(St(c, [], []), but) && c.s.pump == PumpLoop && !c.h.broke && 0 < |b| <= STREAM_BUF_SIZE
    ensures Reached(St(c.(s := c.s.(pump := PumpEnd),
                          h := c.h.(rest := c.h.rest + b, eof := true, sent := c.h.sent + [b])),
                       [Data(b)] + [Close], []), but)
  {
    hide Reached, ServeEffect, ClientEffect, ReplyEffect, Inbox.Valid;
    assert [] + [Data(b)] == [Data(b)];
    var c1 := c.(s := c.s.(pump := PumpClose), h := c.h.(rest := c.h.rest + b, eof := true, sent := c.h.sent + [b]));
    SendsDown(c, PRead(b, true, true, false), c1, Data(b), [], [], but);
    SendsDown(c1, PSendClose(true), c1.(s := c.s.(pump := PumpEnd)), Close, [Data(b)], [], but);
  }

  /** A chunk of a registered upload is handled and queued. */
  lemma {:induction false} ChunkQueued(c: Http, b: Bytes, down: seq<Msg>, but: set<Act>)
    requires Reached(St(c, [Data(b)] + down, []), but) && c.k.hand.None? && c.k.body && c.u.made && c.u.queue == []
    ensures Reached(St(c.(u := c.u.(queue := [b]), h := c.h.(handled := c.h.handled + [b], queued := c.h.queued + [b])),
                       down, []), but)
  {
    hide Reached, ServeEffect, LoopEffect, ReplyEffect;
    assert c.u.queue + [b] == [b];
    var c1 := c.(h := c.h.(handled := c.h.handled + [b]), k := c.k.(hand := Some(b)));
    TakesDown(c, LData(b), c1, Data(b), down, [], but);
    Silent(c1, LEnqueue, c.(u := c.u.(queue := [b]), h := c1.h.(queued := c.h.queued + [b])), down, [], but);
  }

  lemma {:induction false} RestIsSent(head: Bytes, rest: Bytes)
    requires 0 < |rest| <= STREAM_BUF_SIZE
    ensures var c := Registered(head, true);
            Reached(St(c.(s := c.s.(pump := PumpEnd), h := c.h.(rest := rest, eof := true, sent := [head, rest])),
                       [Data(rest)] + [Close], []), {})
  {
    ChunkDropped(head);
    hide Reached, Effect;
    var c := Registered(head, true);
    assert [head] + [rest] == [head, rest] && c.h.rest + rest == rest;
    LastChunkSent(c, rest, {});
  }

  lemma {:induction false} RestArrives(head: Bytes, rest: Bytes)
    requires 0 < |rest| <= STREAM_BUF_SIZE
    ensures Reached(St(RestQueued(head, rest), [Close], []), {})
  {
    RestIsSent(head, rest);
    hide Reached, Effect;
    var r := Registered(head, true);
    var c := r.(s := r.s.(pump := PumpEnd), h := r.h.(rest := rest, eof := true, sent := [head, rest]));
    assert c.h.queued + [rest] == [rest] && c.h.handled + [rest] == [head, rest];
    ChunkQueued(c, rest, [Close], {});
  }

  function RestRead(head: Bytes, rest: Bytes): Http {
    var c := RestQueued(head, rest);
    c.(k := c.k.(body := false), n := c.n.(closes := 1), u := c.u.(closes := 1, queue := [], got := rest, end := Eof))
  }

  lemma {:induction false} RestIsTaken(c: Http, rest: Bytes, but: set<Act>)
    requires Reached(St(c, [Close] + [], []), but) && c.k.hand.None? && c.k.body && c.s.phase == Await && !c.n.cutShort
    requires c.u.made && c.u.queue == [rest] && c.u.rem == [] && c.u.closes == 0
    ensures Reached(St(c.(k := c.k.(body := false), u := c.u.(closes := 1, rem := rest, queue := []),
                          n := c.n.(closes := c.n.closes + 1)), [], []), but)
  {
    hide Reached, ServeEffect, LoopEffect, ReplyEffect;
    var c1 := c.(k := c.k.(body := false), u := c.u.(closes := 1), n := c.n.(closes := c.n.closes + 1));
    TakesDown(c, LClose, c1, Close, [], [], but);
    assert c1.u.queue[1..] == [];
    Silent(c1, RTake, c1.(u := c1.u.(rem := rest, queue := [])), [], [], but);
  }

  lemma {:induction false} RestIsCopied(c: Http, rest: Bytes, but: set<Act>)
    requires Reached(St(c, [], []), but)
    requires c.u.made && c.u.queue == [] && c.u.rem == rest && c.u.got == [] && c.u.closes == 1 && !c.u.aborted
    requires c.u.end == Open
    ensures Reached(St(c.(u := c.u.(rem := [], got := rest, end := Eof)), [], []), but)
  {
    hide Reached, ServeEffect, LoopEffect, ReplyEffect;
    assert c.u.got + rest[..|rest|] == rest && rest[|rest|..] == [];
    var c1 := c.(u := c.u.(rem := [], got := rest));
    Silent(c, RCopy(|rest|), c1, [], [], but);
    Silent(c1, REnd, c1.(u := c1.u.(end := Eof)), [], [], but);
  }

  lemma {:induction false} RestIsRead(head: Bytes, rest: Bytes)
    requires 0 < |rest| <= STREAM_BUF_SIZE
    ensures Reached(St(RestRead(head, rest), [], []), {})
  {
    RestArrives(head, rest);
    hide Reached, Effect;
    var c := RestQueued(head, rest);
    assert [Close] + [] == [Close];
    RestIsTaken(c, rest, {});
    RestIsCopied(c.(k := c.k.(body := false), u := c.u.(closes := 1, rem := rest, queue := []),
                    n := c.n.(closes := 1)), rest, {});
  }

  /** No step is faulty, the local application has read to a clean end before it answers, and
      yet it never saw the first chunk: its stream was registered too late. */
  lemma {:induction false} EarlyChunkIsLost(head: Bytes, rest: Bytes)
    requires head != [] && 0 < |rest| <= STREAM_BUF_SIZE
    ensures exists st :: Reached(st, {}) && st.c.u.end == Eof && st.c.k.phase == Doing && st.c.h.lost == 1
              && st.c.h.head + st.c.h.rest == head + rest && st.c.u.got == rest && st.c.u.got != head + rest
  {
    RestIsRead(head, rest);
    hide Reached;
    assert |head + rest| > |rest|;
    assert Reached(St(RestRead(head, rest), [], []), {});
  }

  function HeadQueued(head: Bytes): Http {
    var c := Registered(head, false);
    c.(u := c.u.(queue := [head]), h := c.h.(handled := [head], queued := [head]))
  }

  lemma {:induction false} HeadArrives(head: Bytes, but: set<Act>)
    ensures Reached(St(HeadQueued(head), [], []), but)
  {
    RequestArrives(head, but);
    hide Reached, ServeEffect, LoopEffect, ClientEffect;
    var s := Sending(head);
    var c := Registered(head, false);
    Silent(s.(k := s.k.(phase := Spawned)), KBegin, c, [Data(head)] + [], [], but);
    assert c.h.handled + [head] == [head] && c.h.queued + [head] == [head];
    ChunkQueued(c, head, [], but);
  }

  /** The viewer's body ends after its head, or reading it fails there; the local application
      has read the head and seen the end. */
  function HeadRead(head: Bytes, failed: bool): Http {
    var c := HeadQueued(head);
    c.(s := c.s.(pump := PumpEnd), k := c.k.(body := false),
       u := c.u.(closes := 1, queue := [], got := head, end := Eof),
       h := c.h.(eof := !failed, broke := failed), n := c.n.(closes := 1))
  }

  lemma {:induction false} UploadEndsOrBreaks(head: Bytes, failed: bool, but: set<Act>)
    requires failed ==> PRead([], true, true, true) in but
    ensures Reached(St(HeadRead(head, failed), [], []), but)
  {
    HeadArrives(head, but);
    hide Reached, Effect;
    var c := HeadQueued(head);
    PumpEnds(c, failed, [], but);
    var c2 := c.(s := c.s.(pump := PumpEnd), h := c.h.(eof := !failed, broke := failed));
    RestIsTaken(c2, head, but);
    var c3 := c2.(k := c2.k.(body := false), u := c2.u.(closes := 1, rem := head, queue := []),
                  n := c2.n.(closes := 1));
    RestIsCopied(c3, head, but);
  }

  /** Two runs the client and the local application cannot tell apart: in one the viewer's
      body ended, in the other the viewer broke off; both read as a clean end. */
  lemma {:induction false} UploadCloseIsAmbiguous(head: Bytes)
    ensures exists x, y :: Reached(x, {}) && Reached(y, {PRead([], true, true, true)})
              && x.c.k == y.c.k && x.c.u == y.c.u && x.c.u.end == Eof && x.c.h.eof && !y.c.h.eof
  {
    UploadEndsOrBreaks(head, false, {});
    UploadEndsOrBreaks(head, true, {PRead([], true, true, true)});
    hide Reached;
    var x, y := St(HeadRead(head, false), [], []), St(HeadRead(head, true), [], []);
    assert Reached(x, {}) && Reached(y, {PRead([], true, true, true)});
  }

  // ---- A response under way ---------------------------------------------

  /** The client, about to answer, announces a body over the limit and sends its first part. */
  function Answered(c: Http, big: Bytes): Http {
    c.(k := c.k.(phase := Pumping, cancel := true),
       d := c.d.(body := big, res := Some(Streamed), sent := [big], unsent := []))
  }

  lemma {:induction false} ClientAnswers(c: Http, big: Bytes, but: set<Act>)
    requires Reached(St(c, [], []), but) && c.k.phase == Doing && c.k.cancelCloses == 0
    requires |big| == INLINE_BODY_LIMIT + 1 && c.d.sent == []
    ensures Reached(St(Answered(c, big), [], [Res(Streamed)] + [Data(big)]), but)
  {
    hide Reached, ServeEffect, LoopEffect, ClientEffect;
    var c1 := c.(k := c.k.(phase := Slot), d := c.d.(body := big, unsent := big));
    Silent(c, KBig(big), c1, [], [], but);
    var c2 := c1.(k := c1.k.(phase := Header, cancel := true));
    Silent(c1, KListCancel, c2, [], [], but);
    var c3 := c2.(k := c2.k.(phase := First), d := c2.d.(res := Some(Streamed)));
    SendsUp(c2, KHeader(true, None), c3, Res(Streamed), [], [], but);
    assert [] + [Res(Streamed)] == [Res(Streamed)] && [] + [big] == [big];
    SendsUp(c3, KFirst(true), Answered(c, big), Data(big), [], [Res(Streamed)], but);
  }

  /** The server relays the one chunk and takes the close for the end. */
  function Relayed(c: Http, big: Bytes): Http {
    c.(s := c.s.(phase := Last, resp := Some(Streamed),
                 inbox := c.s.inbox.(listed := false, closed := true, processed := [big], taken := [big])),
       d := c.d.(seen := Some(Streamed), viewer := big))
  }

  lemma {:induction false} ServerHears(c: Http, big: Bytes, down: seq<Msg>, but: set<Act>)
    requires Reached(St(c, down, [Res(Streamed)] + ([Data(big)] + [Close])), but)
    requires c.s.phase == Await && c.s.inbox == EMPTY_INBOX.(made := true, listed := true) && c.s.resp.None?
    requires c.d.viewer == [] && c.d.torn == []
    ensures Reached(St(Relayed(c, big), down, []), but)
  {
    hide Reached, Effect;
    FirstQueued(c, big, down, [Close], but);
    var i := c.s.inbox.(processed := [big], queue := [big]);
    ServerEnds(c.(s := c.s.(resp := Some(Streamed), phase := Relaying, inbox := i), d := c.d.(seen := Some(Streamed))),
               big, down, but);
  }

  /** The header is heard and the first chunk queued. */
  lemma {:induction false} FirstQueued(c: Http, big: Bytes, down: seq<Msg>, up: seq<Msg>, but: set<Act>)
    requires Reached(St(c, down, [Res(Streamed)] + ([Data(big)] + up)), but)
    requires c.s.phase == Await && c.s.inbox == EMPTY_INBOX.(made := true, listed := true) && c.s.resp.None?
    ensures var i := c.s.inbox.(processed := [big], queue := [big]);
            Reached(St(c.(s := c.s.(resp := Some(Streamed), phase := Relaying, inbox := i),
                          d := c.d.(seen := Some(Streamed))), down, up), but)
  {
    hide Reached, ClientEffect, ReplyEffect;
    var i := c.s.inbox;
    var c1 := c.(s := c.s.(resp := Some(Streamed)));
    TakesUp(c, FRes(Streamed, true), c1, Res(Streamed), down, [Data(big)] + up, but);
    var c2 := c1.(s := c1.s.(phase := Relaying), d := c.d.(seen := Some(Streamed)));
    Silent(c1, SGet(0, true), c2, down, [Data(big)] + up, but);
    assert [] + [big] == [big];
    var c3 := c2.(s := c2.s.(inbox := i.(processed := [big], hand := Some(big))));
    TakesUp(c2, FData(big), c3, Data(big), down, up, but);
    Silent(c3, FEnqueue, c3.(s := c3.s.(inbox := i.(processed := [big], queue := [big]))), down, up, but);
  }

  lemma {:induction false} ServerWrites(c: Http, big: Bytes, down: seq<Msg>, up: seq<Msg>, but: set<Act>)
    requires Reached(St(c, down, up), but)
    requires c.s.phase == Relaying && c.d.viewer == [] && c.d.torn == []
    requires c.s.inbox.queue == [big] && c.s.inbox.taken == []
    ensures Reached(St(c.(s := c.s.(inbox := c.s.inbox.(queue := [], taken := [big])),
                          d := c.d.(viewer := big)), down, up), but)
  {
    hide Reached, LoopEffect, ClientEffect, ReplyEffect;
    var i := c.s.inbox;
    assert i.taken + [big] == [big] && c.d.viewer + big[..|big|] == big && i.queue[1..] == [];
    assert c.d.torn + big[|big|..] == [];
    Silent(c, STake(|big|, true), c.(s := c.s.(inbox := i.(queue := [], taken := [big])), d := c.d.(viewer := big)),
           down, up, but);
  }

  lemma {:induction false} CloseIsHeard(c: Http, down: seq<Msg>, but: set<Act>)
    requires Reached(St(c, down, [Close]), but) && c.s.inbox.hand.None? && c.s.inbox.listed
    ensures Reached(St(c.(s := c.s.(inbox := c.s.inbox.(listed := false, closed := true))), down, []), but)
  {
    hide Reached, ServeEffect, ClientEffect, ReplyEffect;
    assert [Close] + [] == [Close];
    TakesUp(c, FClose, c.(s := c.s.(inbox := c.s.inbox.(listed := false, closed := true))), Close, down, [], but);
  }

  lemma {:induction false} ServerEnds(c: Http, big: Bytes, down: seq<Msg>, but: set<Act>)
    requires Reached(St(c, down, [Close]), but)
    requires c.s.phase == Relaying && c.d.viewer == [] && c.d.torn == []
    requires c.s.inbox == EMPTY_INBOX.(made := true, listed := true, processed := [big], queue := [big])
    ensures var i := EMPTY_INBOX.(made := true, processed := [big], taken := [big], closed := true);
            Reached(St(c.(s := c.s.(phase := Last, inbox := i), d := c.d.(viewer := big)), down, []), but)
  {
    hide Reached, LoopEffect, ClientEffect, ReplyEffect;
    var i := c.s.inbox;
    ServerWrites(c, big, down, [Close], but);
    var c1 := c.(s := c.s.(inbox := i.(queue := [], taken := [big])), d := c.d.(viewer := big));
    CloseIsHeard(c1, down, but);
    var c2 := c1.(s := c.s.(inbox := i.(queue := [], taken := [big], listed := false, closed := true)));
    Silent(c2, SEof, c2.(s := c2.s.(phase := Last)), down, [], but);
  }

  // ---- A late end of an upload cancels the response ---------------------

  /** The upload stalled: its stream was aborted and taken out of the table. */
  function Stalled(head: Bytes): Http {
    var c := Registered(head, false);
    c.(k := c.k.(body := false), u := c.u.(closes := 1, aborted := true),
       h := c.h.(handled := [head], missed := [head]), n := c.n.(stalled := true))
  }

  lemma {:induction false} ChunkStalls(c: Http, head: Bytes, but: set<Act>)
    requires Reached(St(c, [Data(head)] + [], []), but) && LStall in but
    requires c.k.hand.None? && c.k.body && c.u.made && c.u.closes == 0 && c.h.handled == [] && c.h.missed == []
    ensures Reached(St(c.(k := c.k.(body := false), u := c.u.(closes := 1, aborted := true),
                          h := c.h.(handled := [head], missed := [head]), n := c.n.(stalled := true)), [], []), but)
  {
    hide Reached, ServeEffect, LoopEffect, ReplyEffect;
    var c1 := c.(k := c.k.(hand := Some(head)), h := c.h.(handled := [head]));
    assert c.h.handled + [head] == [head] && c.h.missed + [head] == [head];
    TakesDown(c, LData(head), c1, Data(head), [], [], but);
    var c2 := c.(k := c.k.(body := false), u := c.u.(closes := 1, aborted := true),
                 h := c.h.(handled := [head], missed := [head]), n := c.n.(stalled := true));
    Silent(c1, LStall, c2, [], [], but);
  }

  lemma {:induction false} UploadStalls(head: Bytes)
    ensures Reached(St(Stalled(head), [], []), {LStall})
  {
    RequestArrives(head, {LStall});
    hide Reached, ServeEffect, LoopEffect, ClientEffect;
    var s := Sending(head);
    var c := Registered(head, false);
    Silent(s.(k := s.k.(phase := Spawned)), KBegin, c, [Data(head)] + [], [], {LStall});
    ChunkStalls(c, head, {LStall});
  }

  function Cancelled(head: Bytes, big: Bytes): Http {
    var c := Answered(Stalled(head), big);
    c.(s := c.s.(pump := PumpEnd), k := c.k.(cancel := false, cancelCloses := 1), n := c.n.(closes := 1),
       h := c.h.(eof := true))
  }

  lemma {:induction false} CloseCancels(c: Http, up: seq<Msg>, but: set<Act>)
    requires Reached(St(c, [Close] + [], up), but) && c.k.hand.None? && !c.k.body && c.k.cancel
    ensures Reached(St(c.(k := c.k.(cancel := false, cancelCloses := c.k.cancelCloses + 1),
                          n := c.n.(closes := c.n.closes + 1)), [], up), but)
  {
    hide Reached, ServeEffect, LoopEffect, ReplyEffect;
    TakesDown(c, LClose, c.(k := c.k.(cancel := false, cancelCloses := c.k.cancelCloses + 1),
                            n := c.n.(closes := c.n.closes + 1)), Close, [], up, but);
  }

  lemma {:induction false} UploadEndCancels(head: Bytes, big: Bytes)
    requires |big| == INLINE_BODY_LIMIT + 1
    ensures Reached(St(Cancelled(head, big), [], [Res(Streamed)] + [Data(big)]), {LStall})
  {
    UploadStalls(head);
    ClientAnswers(Stalled(head), big, {LStall});
    hide Reached, Effect;
    var up := [Res(Streamed)] + [Data(big)];
    var c := Answered(Stalled(head), big);
    PumpEnds(c, false, up, {LStall});
    CloseCancels(c.(s := c.s.(pump := PumpEnd), h := c.h.(eof := true, broke := false)), up, {LStall});
  }

  /** The client finds its response cancelled with more of it in hand. */
  function Cut(c: Http, more: Bytes): Http {
    c.(k := c.k.(phase := Uncancel), d := c.d.(body := c.d.body + more, unsent := c.d.unsent + more),
       n := c.n.(skipped := true))
  }

  lemma {:induction false} CancelStops(c: Http, big: Bytes, more: Bytes, but: set<Act>)
    requires Reached(St(c, [], [Res(Streamed)] + [Data(big)]), but) && c.k.phase == Pumping && c.k.cancelCloses > 0
    requires 0 < |more| <= STREAM_BUF_SIZE
    ensures Reached(St(Cut(c, more), [], [Res(Streamed)] + ([Data(big)] + [Close])), but)
  {
    hide Reached, ServeEffect, LoopEffect, ClientEffect;
    var up := [Res(Streamed)] + [Data(big)];
    var c1 := Cut(c, more).(k := c.k.(phase := Stop));
    Silent(c, KRead(more, true, true, false), c1, [], up, but);
    SendsUp(c1, KSendClose(true), Cut(c, more), Close, [], up, but);
    assert up + [Close] == [Res(Streamed)] + ([Data(big)] + [Close]);
  }

  lemma {:induction false} CancelledIsRelayed(head: Bytes, big: Bytes, more: Bytes)
    requires |big| == INLINE_BODY_LIMIT + 1 && 0 < |more| <= STREAM_BUF_SIZE
    ensures Reached(St(Relayed(Cut(Cancelled(head, big), more), big), [], []), {LStall})
  {
    UploadEndCancels(head, big);
    hide Reached, Effect;
    var c := Cancelled(head, big);
    CancelStops(c, big, more, {LStall});
    ServerHears(Cut(c, more), big, [], {LStall});
  }

  /** The only fault is that the local application stopped reading the upload; it answers in
      full, yet the upload's own end cuts the response off, and the server takes the cut for
      its end. */
  lemma {:induction false} LateUploadEndCutsResponse(head: Bytes, big: Bytes, more: Bytes)
    requires |big| == INLINE_BODY_LIMIT + 1 && 0 < |more| <= STREAM_BUF_SIZE
    ensures exists st :: Reached(st, {LStall}) && st.c.s.phase == Last && st.c.s.inbox.closed
              && st.c.d.viewer == big && st.c.d.body == big + more
  {
    CancelledIsRelayed(head, big, more);
    hide Reached;
    assert Reached(St(Relayed(Cut(Cancelled(head, big), more), big), [], []), {LStall});
  }

  // ---- A close tells no end of a response from its failure ----------------

  /** The local body ends after its first part, or fails there. */
  function Over4M(big: Bytes, failed: bool): Http {
    var c := Answered(Asked(), big);
    c.(k := c.k.(phase := Uncancel), d := c.d.(eof := !failed, broke := failed))
  }

  function Asked(): Http {
    var c := Sending([]);
    c.(s := c.s.(pump := NoPump), k := c.k.(phase := Doing), h := c.h.(streamed := false, sent := []))
  }

  lemma {:induction false} AskArrives(but: set<Act>)
    ensures Reached(St(Asked().(k := Asked().k.(phase := Spawned)), [], []), but)
  {
    hide Reached;
    var c := Init(false, []);
    var c1 := c.(s := c.s.(phase := Listed, inbox := EMPTY_INBOX.(made := true, listed := true)));
    var c2 := c1.(s := c1.s.(phase := Await));
    Begins(false, [], but);
    Silent(c, SList, c1, [], [], but);
    SendsDown(c1, SSend(true), c2, Req(false), [], [], but);
    assert [] + [Req(false)] == [Req(false)] + [];
    TakesDown(c2, LReq, c2.(k := c2.k.(phase := Spawned)), Req(false), [], [], but);
  }

  lemma {:induction false} Asks(but: set<Act>)
    ensures Reached(St(Asked(), [], []), but)
  {
    AskArrives(but);
    hide Reached, ServeEffect, LoopEffect, ClientEffect;
    Silent(Asked().(k := Asked().k.(phase := Spawned)), KBegin, Asked(), [], [], but);
  }

  lemma {:induction false} EndsOrFails(big: Bytes, failed: bool, but: set<Act>)
    requires |big| == INLINE_BODY_LIMIT + 1 && (failed ==> KRead([], true, true, true) in but)
    ensures Reached(St(Relayed(Over4M(big, failed), big), [], []), but)
  {
    Asks(but);
    ClientAnswers(Asked(), big, but);
    hide Reached;
    Finishes(Answered(Asked(), big), big, failed, but);
    ServerHears(Over4M(big, failed), big, [], but);
  }

  lemma {:induction false} Finishes(c: Http, big: Bytes, failed: bool, but: set<Act>)
    requires Reached(St(c, [], [Res(Streamed)] + [Data(big)]), but) && (failed ==> KRead([], true, true, true) in but)
    requires c.k.phase == Pumping && !c.d.broke
    ensures var n := c.(k := c.k.(phase := Uncancel), d := c.d.(eof := !failed, broke := failed));
            Reached(St(n, [], [Res(Streamed)] + ([Data(big)] + [Close])), but)
  {
    hide Reached, ServeEffect, LoopEffect, ClientEffect;
    var up := [Res(Streamed)] + [Data(big)];
    var c1 := c.(k := c.k.(phase := Stop), d := c.d.(eof := !failed, broke := failed));
    Silent(c, KRead([], true, true, failed), c1, [], up, but);
    SendsUp(c1, KSendClose(true), c1.(k := c1.k.(phase := Uncancel)), Close, [], up, but);
    assert up + [Close] == [Res(Streamed)] + ([Data(big)] + [Close]);
  }

  /** Two runs the server and the viewer cannot tell apart: in one the local body ended, in
      the other reading it failed. */
  lemma {:induction false} CloseIsAmbiguous(big: Bytes)
    requires |big| == INLINE_BODY_LIMIT + 1
    ensures exists x, y :: Reached(x, {}) && Reached(y, {KRead([], true, true, true)})
              && x.c.s == y.c.s && x.c.d.viewer == y.c.d.viewer && x.c.d.eof && !y.c.d.eof
  {
    EndsOrFails(big, false, {});
    EndsOrFails(big, true, {KRead([], true, true, true)});
    hide Reached;
    var x, y := St(Relayed(Over4M(big, false), big), [], []), St(Relayed(Over4M(big, true), big), [], []);
    assert Reached(x, {}) && Reached(y, {KRead([], true, true, true)});
  }

  // ---- What a failure looks like ------------------------------------------

  /** Whatever text the client answers with is what the viewer sees. */
  lemma {:induction false} TextIsShown(c: Http, e: Bytes, but: set<Act>)
    requires Reached(St(c, [], [Res(Inline(e, false))] + []), but)
    requires c.s.phase == Await && c.s.inbox == EMPTY_INBOX.(made := true, listed := true) && c.s.resp.None?
    ensures exists st :: Reached(st, but) && Over(st.c.s.phase) && st.c.d.viewer == e
  {
    hide Reached, ClientEffect, ReplyEffect;
    var r := Inline(e, false);
    var c1 := c.(s := c.s.(resp := Some(r)));
    TakesUp(c, FRes(r, true), c1, Res(r), [], [], but);
    assert e[..|e|] == e && e[|e|..] == [];
    var c2 := c1.(s := c1.s.(phase := Leaving), d := c1.d.(seen := Some(r), viewer := e, torn := []));
    Silent(c1, SGet(|e|, true), c2, [], [], but);
    assert Reached(St(c2, [], []), but);
  }

  lemma {:induction false} AnswerIsShown(c: Http, a: Act, n: Http, e: Bytes)
    requires Reached(St(c, [], []), {a}) && Takes(a) == Nothing
    requires Effect(c, a) == Some(Out(n, [], [Res(Inline(e, false))]))
    requires n.s.phase == Await && n.s.inbox == EMPTY_INBOX.(made := true, listed := true) && n.s.resp.None?
    ensures exists st :: Reached(st, {a}) && Over(st.c.s.phase) && st.c.d.viewer == e
  {
    hide Reached, Effect, Takes, Faulty;
    SendsUp(c, a, n, Res(Inline(e, false)), [], [], {a});
    assert [] + [Res(Inline(e, false))] == [Res(Inline(e, false))] + [];
    TextIsShown(n, e, {a});
  }

  /** The client's refusal, the local application's failure, the lack of a slot for a response above
      the limit, and a response that cannot be encoded, inline or streamed, are each shown as the
      text that says so. */
  lemma {:induction false} ErrorsAreShown(e: Bytes, b: Bytes, big: Bytes)
    requires |b| <= INLINE_BODY_LIMIT && |big| == INLINE_BODY_LIMIT + 1
    ensures exists st :: Reached(st, {KInline(b, true, Some(e))}) && Over(st.c.s.phase) && st.c.d.viewer == e
    ensures exists st :: Reached(st, {KHeader(true, Some(e))}) && Over(st.c.s.phase) && st.c.d.viewer == e
    ensures exists st :: Reached(st, {KRefuse(e, true)}) && Over(st.c.s.phase) && st.c.d.viewer == e
    ensures exists st :: Reached(st, {KFail(e, true)}) && Over(st.c.s.phase) && st.c.d.viewer == e
    ensures exists st :: Reached(st, {KNoSlot(e, true)}) && Over(st.c.s.phase) && st.c.d.viewer == e
  {
    RefusalIsShown(e);
    FailureIsShown(e);
    NoSlotIsShown(e, big);
    InlineFailureIsShown(e, b);
    HeaderFailureIsShown(e, big);
  }

  lemma {:induction false} InlineFailureIsShown(e: Bytes, b: Bytes)
    requires |b| <= INLINE_BODY_LIMIT
    ensures exists st :: Reached(st, {KInline(b, true, Some(e))}) && Over(st.c.s.phase) && st.c.d.viewer == e
  {
    var a := KInline(b, true, Some(e));
    Asks({a});
    hide Reached, ServeEffect, LoopEffect, ClientEffect;
    var c := Asked();
    var d := c.d.(body := b, eof := true, unsent := b, res := Some(Inline(e, false)));
    AnswerIsShown(c, a, c.(k := c.k.(phase := Leave), d := d, n := Fault(c.n, false)), e);
  }

  lemma {:induction false} HeaderFailureIsShown(e: Bytes, big: Bytes)
    requires |big| == INLINE_BODY_LIMIT + 1
    ensures exists st :: Reached(st, {KHeader(true, Some(e))}) && Over(st.c.s.phase) && st.c.d.viewer == e
  {
    var a := KHeader(true, Some(e));
    Asks({a});
    hide Reached, ServeEffect, LoopEffect, ClientEffect;
    var c := Asked();
    var c1 := c.(k := c.k.(phase := Slot), d := c.d.(body := big, unsent := big));
    Silent(c, KBig(big), c1, [], [], {a});
    var c2 := c1.(k := c1.k.(phase := Header, cancel := true));
    Silent(c1, KListCancel, c2, [], [], {a});
    var n := c2.(k := c2.k.(phase := First), d := c2.d.(res := Some(Inline(e, false))), n := Fault(c2.n, false));
    AnswerIsShown(c2, a, n, e);
  }

  lemma {:induction false} RefusalIsShown(e: Bytes)
    ensures exists st :: Reached(st, {KRefuse(e, true)}) && Over(st.c.s.phase) && st.c.d.viewer == e
  {
    var a := KRefuse(e, true);
    AskArrives({a});
    hide Reached, ServeEffect, LoopEffect, ClientEffect;
    var c := Asked().(k := Asked().k.(phase := Spawned));
    var n := c.(k := c.k.(phase := Ended), d := c.d.(res := Some(Inline(e, false))), n := Fault(c.n, false));
    AnswerIsShown(c, a, n, e);
  }

  lemma {:induction false} FailureIsShown(e: Bytes)
    ensures exists st :: Reached(st, {KFail(e, true)}) && Over(st.c.s.phase) && st.c.d.viewer == e
  {
    var a := KFail(e, true);
    Asks({a});
    hide Reached, ServeEffect, LoopEffect, ClientEffect;
    var c := Asked();
    var n := c.(k := c.k.(phase := Leave), d := c.d.(res := Some(Inline(e, false))), n := Fault(c.n, false));
    AnswerIsShown(c, a, n, e);
  }

  lemma {:induction false} NoSlotIsShown(e: Bytes, big: Bytes)
    requires |big| == INLINE_BODY_LIMIT + 1
    ensures exists st :: Reached(st, {KNoSlot(e, true)}) && Over(st.c.s.phase) && st.c.d.viewer == e
  {
    var a := KNoSlot(e, true);
    Asks({a});
    hide Reached, ServeEffect, LoopEffect, ClientEffect;
    var c := Asked();
    var c1 := c.(k := c.k.(phase := Slot), d := c.d.(body := big, unsent := big));
    Silent(c, KBig(big), c1, [], [], {a});
    var n := c1.(k := c1.k.(phase := Leave), d := c1.d.(res := Some(Inline(e, false))), n := Fault(c1.n, false));
    AnswerIsShown(c1, a, n, e);
  }

  /** The viewer cannot tell a lost link from the end of a response either: the server's clean-up
      closes the stream as its end would. */
  lemma {:induction false} LostLinkLooksLikeEnd(big: Bytes)
    requires |big| == INLINE_BODY_LIMIT + 1
    ensures exists st :: Reached(st, {FCleanup}) && st.c.s.phase == Last && st.c.s.inbox.closed
              && st.c.d.viewer == st.c.d.body == big && !st.c.d.eof && st.c.k.phase == Pumping
  {
    Asks({FCleanup});
    ClientAnswers(Asked(), big, {FCleanup});
    hide Reached, Effect;
    var c := Answered(Asked(), big);
    assert [Res(Streamed)] + [Data(big)] == [Res(Streamed)] + ([Data(big)] + []);
    FirstQueued(c, big, [], [], {FCleanup});
    var i := c.s.inbox.(processed := [big], queue := [big]);
    var c1 := c.(s := c.s.(phase := Relaying, resp := Some(Streamed), inbox := i), d := c.d.(seen := Some(Streamed)));
    ServerWrites(c1, big, [], [], {FCleanup});
    LinkIsLost(c1.(s := c1.s.(inbox := i.(queue := [], taken := [big])), d := c1.d.(viewer := big)));
  }

  lemma {:induction false} LinkIsLost(c: Http)
    requires Reached(St(c, [], []), {FCleanup}) && c.s.phase == Relaying && c.s.inbox.listed && c.s.inbox.queue == []
    ensures var n := c.(s := c.s.(phase := Last, inbox := c.s.inbox.(listed := false, closed := true, done := true)),
                        n := Fault(c.n, false));
            Reached(St(n, [], []), {FCleanup})
  {
    hide Reached, ClientEffect, ReplyEffect;
    var i := c.s.inbox.(listed := false, closed := true, done := true);
    var c1 := c.(s := c.s.(inbox := i), n := Fault(c.n, false));
    Silent(c, FCleanup, c1, [], [], {FCleanup});
    Silent(c1, SEof, c1.(s := c1.s.(phase := Last)), [], [], {FCleanup});
  }
}
