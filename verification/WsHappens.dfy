/**
 Every upgraded connection, registered in time, can be run to its end without a fault: bytes of
 any number reach the local application, and any number of its bytes the viewer.
 */
module WsHappens {
  import opened Basics
  import opened Link
  import opened WsRelay
  import opened WsRuns

  // ---- Bytes both ways ------------------------------------------------------

  /** The relay is up, and everything read on either side has been written on the other. */
  predicate Flows(c: Ws) {
    && c.s.phase == Relaying && c.s.reader == Running && c.s.drain == Running && c.s.inbox.listed && !c.s.inbox.closed
    && c.s.inbox.hand.None? && c.s.inbox.queue == []
    && c.k.phase == Reading && c.k.relay && !c.k.done && c.k.hand.None? && c.k.everRelay && c.i.lost == 0
    && c.i.torn == [] && c.i.written == c.i.read && c.o.torn == [] && c.o.written == c.o.read
  }

  lemma {:induction false} Starts() returns (n: Ws)
    ensures Reached(St(n, [], [])) && Flows(n) && n.i.read == [] && n.o.read == []
  {
    Answers();
    hide Reached, Effect;
    var c := Answered();
    Registers(c);
    n := c.(k := c.k.(phase := Reading, relay := true, everRelay := true));
  }

  lemma {:induction false} InAll(c: Ws, more: Bytes) returns (n: Ws)
    requires Reached(St(c, [], [])) && Flows(c)
    ensures Reached(St(n, [], [])) && Flows(n) && n.i.read == c.i.read + more && n.o == c.o
    decreases |more|
  {
    hide Reached, Effect;
    if more == [] {
      assert c.i.read + more == c.i.read;
      n := c;
    } else {
      var k := Min(|more|, STREAM_BUF_SIZE);
      var b := more[..k];
      ChunkWritten(c, b);
      n := c.(i := c.i.(read := c.i.read + b, sent := c.i.sent + [b], handled := c.i.handled + [b],
                        written := c.i.written + b));
      n := InAll(n, more[k..]);
      assert c.i.read + b + more[k..] == c.i.read + more;
    }
  }

  /** A chunk of the local application's is read, received and queued. */
  lemma {:induction false} ChunkQueued(c: Ws, x: Bytes)
    requires Reached(St(c, [], [])) && Flows(c) && |x| <= STREAM_BUF_SIZE
    ensures var i := c.s.inbox;
            Reached(St(c.(s := c.s.(inbox := i.(processed := i.processed + [x], queue := [x])),
                          o := c.o.(read := c.o.read + x, sent := c.o.sent + [x])), [], []))
  {
    hide Reached, ServeEffect;
    var i := c.s.inbox;
    var c1 := c.(o := c.o.(read := c.o.read + x, sent := c.o.sent + [x]));
    Sends(c, KRead(x, true), c1, Data(x), true);
    var c2 := c1.(s := c1.s.(inbox := i.(processed := i.processed + [x], hand := Some(x))));
    Receives(c1, FData(x), c2, Data(x), true);
    assert i.queue + [x] == [x];
    Silent(c2, FEnqueue, c1.(s := c1.s.(inbox := i.(processed := i.processed + [x], queue := [x]))), [], []);
  }

  /** It is written to the viewer. */
  lemma {:induction false} ChunkShown(c: Ws, x: Bytes)
    requires Reached(St(c, [], [])) && c.s.drain == Running && c.s.inbox.queue == [x] && c.o.torn == []
    ensures var i := c.s.inbox;
            Reached(St(c.(s := c.s.(inbox := i.(queue := [], taken := i.taken + [x])),
                          o := c.o.(written := c.o.written + x)), [], []))
  {
    hide Reached, LoopEffect, LocalEffect;
    var i := c.s.inbox;
    assert [x][1..] == [] && x[..|x|] == x && [] + x[|x|..] == [];
    Silent(c, DWrite(|x|, true), c.(s := c.s.(inbox := i.(queue := [], taken := i.taken + [x])),
                                    o := c.o.(written := c.o.written + x)), [], []);
  }

  lemma {:induction false} OutChunk(c: Ws, x: Bytes) returns (n: Ws)
    requires Reached(St(c, [], [])) && Flows(c) && |x| <= STREAM_BUF_SIZE
    ensures Reached(St(n, [], [])) && Flows(n) && n.o.read == c.o.read + x && n.i == c.i
  {
    ChunkQueued(c, x);
    hide Reached, Effect;
    var i := c.s.inbox;
    var c1 := c.(s := c.s.(inbox := i.(processed := i.processed + [x], queue := [x])),
                 o := c.o.(read := c.o.read + x, sent := c.o.sent + [x]));
    ChunkShown(c1, x);
    n := c1.(s := c1.s.(inbox := c1.s.inbox.(queue := [], taken := i.taken + [x])),
             o := c1.o.(written := c1.o.written + x));
  }

  lemma {:induction false} OutAll(c: Ws, more: Bytes) returns (n: Ws)
    requires Reached(St(c, [], [])) && Flows(c)
    ensures Reached(St(n, [], [])) && Flows(n) && n.o.read == c.o.read + more && n.i == c.i
    decreases |more|
  {
    hide Reached, Flows;
    if more == [] {
      assert c.o.read + more == c.o.read;
      n := c;
    } else {
      var k := Min(|more|, STREAM_BUF_SIZE);
      n := OutChunk(c, more[..k]);
      n := OutAll(n, more[k..]);
      assert c.o.read + more[..k] + more[k..] == c.o.read + more;
    }
  }

  // ---- The end --------------------------------------------------------------

  /** The viewer leaves; the close takes the relay off. */
  lemma {:induction false} ViewerLeaves(c: Ws)
    requires Reached(St(c, [], [])) && c.s.reader == Running && c.k.hand.None? && c.k.relay
    ensures Reached(St(c.(s := c.s.(reader := Stopped), k := c.k.(relay := false, done := true)), [], []))
  {
    hide Reached, LocalEffect;
    assert c.i.read + [] == c.i.read && c.i.unsent + [] == c.i.unsent;
    var c1 := c.(s := c.s.(reader := Closing));
    Silent(c, REnd([]), c1, [], []);
    var c2 := c.(s := c.s.(reader := Stopped));
    Sends(c1, RClose(true), c2, Close, false);
    Receives(c2, LClose, c2.(k := c2.k.(relay := false, done := true)), Close, false);
  }

  /** The client's goroutine sees its connection closed... */
  lemma {:induction false} LocalSees(c: Ws)
    requires Reached(St(c, [], [])) && c.k.phase == Reading && !c.k.relay && c.k.done
    ensures Reached(St(c.(k := c.k.(phase := ExitDone)), [], []))
  {
    hide Reached, ServeEffect, LoopEffect;
    assert c.o.read + [] == c.o.read && c.o.unsent + [] == c.o.unsent;
    var c1 := c.(k := c.k.(phase := Exiting));
    Silent(c, KEnd([]), c1, [], []);
    Silent(c1, KDone, c.(k := c.k.(phase := ExitDone)), [], []);
  }

  /** ... and leaves; its close ends the drain. */
  lemma {:induction false} LocalLeaves(c: Ws)
    requires Reached(St(c, [], [])) && c.k.phase == ExitDone && !c.k.relay
    ensures Reached(St(c.(k := c.k.(phase := Ended)), [], [Close]))
  {
    hide Reached, ServeEffect, LoopEffect;
    var c1 := c.(k := c.k.(phase := ExitOff));
    Silent(c, KOff, c1, [], []);
    Sends(c1, KClose(true), c.(k := c.k.(phase := Ended)), Close, true);
  }

  lemma {:induction false} DrainEnds(c: Ws)
    requires Reached(St(c, [], [Close])) && c.s.drain == Running && c.s.inbox.listed
    requires c.s.inbox.hand.None? && c.s.inbox.queue == []
    ensures Reached(St(c.(s := c.s.(drain := Stopped, inbox := c.s.inbox.(listed := false, closed := true))), [], []))
  {
    hide Reached, LocalEffect;
    var c1 := c.(s := c.s.(inbox := c.s.inbox.(listed := false, closed := true)));
    Receives(c, FClose, c1, Close, true);
    Silent(c1, DStop, c1.(s := c1.s.(drain := Stopped)), [], []);
  }

  lemma {:induction false} ServerLeaves(c: Ws) returns (n: Ws)
    requires Reached(St(c, [], [])) && c.s.phase == Relaying && c.s.reader == Stopped && c.s.drain == Stopped
    requires !c.s.inbox.listed
    ensures Reached(St(n, [], [])) && n.s.phase == Gone && !n.s.inbox.listed && n.k == c.k && n.i == c.i
    ensures n.o == c.o && n.s.inbox.hand == c.s.inbox.hand
  {
    hide Reached, LoopEffect, LocalEffect;
    var c1 := c.(s := c.s.(phase := Leaving));
    Silent(c, SLeave, c1, [], []);
    var c2 := c.(s := c.s.(phase := Unlisted, inbox := c.s.inbox.(listed := false)));
    Silent(c1, SUnlist, c2, [], []);
    n := c2.(s := c2.s.(phase := Gone, inbox := c2.s.inbox.(done := true)));
    Silent(c2, SDone, n, [], []);
  }

  lemma {:induction false} AllEnds(c: Ws) returns (n: Ws)
    requires Reached(St(c, [], [])) && Flows(c)
    ensures Reached(St(n, [], [])) && n.s.phase == Gone && n.k.phase == Ended
    ensures n.s.inbox.hand.None? && !n.s.inbox.listed && !n.k.relay && n.k.hand.None? && n.i == c.i && n.o == c.o
  {
    hide Reached, Effect;
    ViewerLeaves(c);
    var c1 := c.(s := c.s.(reader := Stopped), k := c.k.(relay := false, done := true));
    LocalSees(c1);
    LocalLeaves(c1.(k := c1.k.(phase := ExitDone)));
    var c2 := c1.(k := c1.k.(phase := Ended));
    DrainEnds(c2);
    n := c2.(s := c2.s.(drain := Stopped, inbox := c2.s.inbox.(listed := false, closed := true)));
    n := ServerLeaves(n);
  }

  /** Any bytes of the viewer's and any of the local application's: a run without a faulty step to
      the end of both sides, with both links empty and both tables without the ID, in which
      everything is written. */
  lemma {:induction false} BytesArrive(b: Bytes, x: Bytes) returns (c: Ws)
    ensures Reached(St(c, [], [])) && c.s.phase == Gone && c.k.phase == Ended
    ensures !c.s.inbox.listed && !c.k.relay && c.i.lost == 0 && c.s.inbox.hand.None? && c.k.hand.None?
    ensures c.i.written == c.i.read == b && c.o.written == c.o.read == x
  {
    c := Starts();
    hide Reached;
    c := InAll(c, b);
    c := OutAll(c, x);
    assert [] + b == b && [] + x == x;
    c := AllEnds(c);
  }
}
