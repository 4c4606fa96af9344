/**
 Every relayed connection can be run to its end without a fault: a peeked prefix and reads of any
 length reach the local side, an answer of any length the public one.
 */
module TcpHappens {
  import opened Basics
  import opened Link
  import opened TcpRelay
  import opened TcpRuns

  // ---- Bytes both ways ------------------------------------------------------

  /** The relay is up, and everything read on either side has been written on the other. */
  predicate Flows(c: Tcp) {
    && c.s.phase == Pumping && c.s.drain == Running && c.s.ready && c.s.inbox.listed && !c.s.inbox.closed
    && c.s.inbox.hand.None? && c.s.inbox.queue == []
    && c.k.phase == Reading && c.k.relay && !c.k.done && c.k.hand.None? && c.k.everRelay
    && c.i.torn == [] && c.i.written == c.i.prefix + c.i.read
    && c.o.torn == [] && c.o.written == c.o.read
    && c.n.clean && !c.n.early && !c.n.cut
  }

  /** A payload on the link is handled and written to the local connection. */
  lemma {:induction false} PayloadWritten(c: Tcp, b: Bytes)
    requires Reached(St(c, [Data(b)] + [], []), true)
    requires c.k.hand.None? && c.k.relay && !c.k.done && c.k.everRelay && c.i.torn == [] && c.n.clean && !c.n.early
    ensures Reached(St(c.(i := c.i.(handled := c.i.handled + [b], written := c.i.written + b)), [], []), true)
  {
    hide Reached, RelayEffect, DialEffect;
    var c1 := c.(k := c.k.(hand := Some(b)), i := c.i.(handled := c.i.handled + [b]));
    assert b[..|b|] == b && [] + b[|b|..] == [];
    TakesDown(c, KData(b), c1, Data(b), [], [], true);
    var n := c.(i := c.i.(handled := c.i.handled + [b], written := c.i.written + b));
    Silent(c1, KWrite(|b|, true), n, [], [], true);
  }

  /** The relay starts, and what was read while peeking goes first. */
  lemma {:induction false} Starts(prefix: Bytes) returns (n: Tcp)
    ensures Reached(St(n, [], []), true) && Flows(n) && n.i.prefix == prefix && n.i.read == [] && n.o.read == []
  {
    Acknowledges(prefix, true);
    hide Reached, LoopEffect, DialEffect;
    var c := Acknowledged(prefix);
    var c1 := c.(s := c.s.(phase := Released));
    Silent(c, SReady, c1, [], [], true);
    var c2 := c.(s := c.s.(phase := Pumping, drain := Running));
    if prefix == [] {
      Silent(c1, SPrefix(true), c2, [], [], true);
      n := c2;
    } else {
      var c3 := c2.(i := c.i.(sent := [prefix], unsent := []));
      assert [] + [prefix] == [prefix] && [] + [Data(prefix)] == [Data(prefix)] + [];
      SendsDown(c1, SPrefix(true), c3, Data(prefix), [], [], true);
      PayloadWritten(c3, prefix);
      assert [] + prefix == prefix && prefix + [] == prefix;
      n := c3.(i := c3.i.(handled := c3.i.handled + [prefix], written := c3.i.written + prefix));
    }
  }

  lemma {:induction false} InChunk(c: Tcp, b: Bytes) returns (n: Tcp)
    requires Reached(St(c, [], []), true) && Flows(c) && 0 < |b| <= STREAM_BUF_SIZE
    ensures Reached(St(n, [], []), true) && Flows(n) && n.i.prefix == c.i.prefix && n.i.read == c.i.read + b
    ensures n.o == c.o
  {
    hide Reached, LoopEffect, DialEffect;
    var c1 := c.(i := c.i.(read := c.i.read + b, sent := c.i.sent + [b]));
    assert [] + [Data(b)] == [Data(b)] + [];
    SendsDown(c, SRead(b, true, false), c1, Data(b), [], [], true);
    PayloadWritten(c1, b);
    assert c.i.prefix + c.i.read + b == c.i.prefix + (c.i.read + b);
    n := c1.(i := c1.i.(handled := c1.i.handled + [b], written := c1.i.written + b));
  }

  lemma {:induction false} AnswerSent(c: Tcp, x: Bytes)
    requires Reached(St(c, [], []), true) && Flows(c) && |x| <= STREAM_BUF_SIZE
    ensures Reached(St(c.(o := c.o.(read := c.o.read + x, sent := c.o.sent + [x])), [], [Data(x)] + []), true)
  {
    hide Reached, LoopEffect, RelayEffect;
    assert [] + [Data(x)] == [Data(x)] + [];
    SendsUp(c, CRead(x, true), c.(o := c.o.(read := c.o.read + x, sent := c.o.sent + [x])), Data(x), [], [], true);
  }

  lemma {:induction false} AnswerQueued(c: Tcp, x: Bytes)
    requires Reached(St(c, [], [Data(x)] + []), true) && c.s.inbox.listed && !c.s.inbox.closed
    requires c.s.inbox.hand.None? && c.s.inbox.queue == []
    ensures var i := c.s.inbox;
            Reached(St(c.(s := c.s.(inbox := i.(processed := i.processed + [x], queue := [x]))), [], []), true)
  {
    hide Reached, RelayEffect, DialEffect;
    var i := c.s.inbox;
    var c1 := c.(s := c.s.(inbox := i.(processed := i.processed + [x], hand := Some(x))));
    TakesUp(c, FData(x), c1, Data(x), [], [], true);
    assert i.queue + [x] == [x];
    Silent(c1, FEnqueue, c.(s := c.s.(inbox := i.(processed := i.processed + [x], queue := [x]))), [], [], true);
  }

  lemma {:induction false} AnswerWritten(c: Tcp, x: Bytes)
    requires Reached(St(c, [], []), true) && c.s.drain == Running && c.s.inbox.queue == [x]
    requires c.o.torn == [] && c.n.clean
    ensures var i := c.s.inbox;
            Reached(St(c.(s := c.s.(inbox := i.(queue := [], taken := i.taken + [x])),
                          o := c.o.(written := c.o.written + x)), [], []), true)
  {
    hide Reached, LoopEffect, DialEffect;
    var i := c.s.inbox;
    assert [x][1..] == [] && x[..|x|] == x && [] + x[|x|..] == [];
    Silent(c, DWrite(|x|, true), c.(s := c.s.(inbox := i.(queue := [], taken := i.taken + [x])),
                                    o := c.o.(written := c.o.written + x)), [], [], true);
  }

  lemma {:induction false} OutChunk(c: Tcp, x: Bytes) returns (n: Tcp)
    requires Reached(St(c, [], []), true) && Flows(c) && |x| <= STREAM_BUF_SIZE
    ensures Reached(St(n, [], []), true) && Flows(n) && n.i == c.i && n.o.read == c.o.read + x
  {
    AnswerSent(c, x);
    hide Reached, Effect;
    var c1 := c.(o := c.o.(read := c.o.read + x, sent := c.o.sent + [x]));
    AnswerQueued(c1, x);
    var i := c.s.inbox.(processed := c.s.inbox.processed + [x]);
    AnswerWritten(c1.(s := c1.s.(inbox := i.(queue := [x]))), x);
    n := c1.(s := c1.s.(inbox := i.(taken := i.taken + [x])), o := c1.o.(written := c1.o.written + x));
  }

  lemma {:induction false} InAll(c: Tcp, more: Bytes) returns (n: Tcp)
    requires Reached(St(c, [], []), true) && Flows(c)
    ensures Reached(St(n, [], []), true) && Flows(n) && n.i.prefix == c.i.prefix && n.i.read == c.i.read + more
    ensures n.o == c.o
    decreases |more|
  {
    hide Reached, Flows;
    if more == [] {
      assert c.i.read + more == c.i.read;
      n := c;
    } else {
      var k := Min(|more|, STREAM_BUF_SIZE);
      n := InChunk(c, more[..k]);
      n := InAll(n, more[k..]);
      assert c.i.read + more[..k] + more[k..] == c.i.read + more;
    }
  }

  lemma {:induction false} OutAll(c: Tcp, more: Bytes) returns (n: Tcp)
    requires Reached(St(c, [], []), true) && Flows(c)
    ensures Reached(St(n, [], []), true) && Flows(n) && n.i == c.i && n.o.read == c.o.read + more
    decreases |more|
  {
    hide Reached, Flows;
    if more == [] {
      assert c.o.read + more == c.o.read;
      n := c;
    } else {
      var k := Min(|more|, STREAM_BUF_SIZE);
      n := OutChunk(c, more[..k]);
      n := OutAll(n, more[k..]);
      assert c.o.read + more[..k] + more[k..] == c.o.read + more;
    }
  }

  // ---- The end --------------------------------------------------------------

  /** The server closes and the client's relay ends. */
  lemma {:induction false} RelayCloses(c: Tcp)
    requires Reached(St(c, [], []), true) && c.s.phase == Closing
    requires c.k.hand.None? && c.k.relay && !c.k.done && c.n.clean
    ensures Reached(St(c.(s := c.s.(phase := Leaving), k := c.k.(relay := false, done := true),
                          n := c.n.(closeHandled := true)), [], []), true)
  {
    hide Reached, DialEffect;
    var c1 := c.(s := c.s.(phase := Leaving));
    SendsDown(c, SClose(true), c1, Close, [], [], true);
    assert [] + [Close] == [Close] + [];
    var c2 := c1.(k := c1.k.(relay := false, done := true), n := c1.n.(closeHandled := true));
    TakesDown(c1, KClose, c2, Close, [], [], true);
  }

  /** The client's goroutine sees its connection closed... */
  lemma {:induction false} ClientSees(c: Tcp)
    requires Reached(St(c, [], []), true) && c.k.phase == Reading && !c.k.relay && c.k.done && c.n.clean
    ensures Reached(St(c.(k := c.k.(phase := ExitDone)), [], []), true)
  {
    hide Reached, RelayEffect, LoopEffect;
    assert c.o.read + [] == c.o.read && c.o.unsent + [] == c.o.unsent;
    var c1 := c.(k := c.k.(phase := Exiting));
    Silent(c, CEnd([]), c1, [], [], true);
    Silent(c1, CDone, c.(k := c.k.(phase := ExitDone)), [], [], true);
  }

  /** ... and leaves. */
  lemma {:induction false} ClientLeaves(c: Tcp)
    requires Reached(St(c, [], []), true) && c.k.phase == ExitDone && !c.k.relay && c.n.clean
    ensures Reached(St(c.(k := c.k.(phase := Ended, closeSent := true)), [], [Close] + []), true)
  {
    hide Reached, RelayEffect, LoopEffect;
    assert [] + [Close] == [Close] + [];
    var c1 := c.(k := c.k.(phase := ExitOff));
    Silent(c, COff, c1, [], [], true);
    SendsUp(c1, CClose(true), c.(k := c.k.(phase := Ended, closeSent := true)), Close, [], [], true);
  }

  /** The server takes the client's close, and the drain comes to the end of its stream. */
  lemma {:induction false} DrainEnds(c: Tcp)
    requires Reached(St(c, [], [Close] + []), true) && c.s.drain == Running && c.s.inbox.listed
    requires c.s.inbox.hand.None?
    requires c.s.inbox.queue == [] && c.s.ready && !c.n.cut
    ensures Reached(St(c.(s := c.s.(drain := Stopped, inbox := c.s.inbox.(listed := false, closed := true))),
                       [], []), true)
  {
    hide Reached, DialEffect;
    var c1 := c.(s := c.s.(inbox := c.s.inbox.(listed := false, closed := true)));
    TakesUp(c, FClose, c1, Close, [], [], true);
    Silent(c1, DStop, c1.(s := c1.s.(drain := Stopped)), [], [], true);
  }

  /** And the relay is taken off. */
  lemma {:induction false} ServerLeaves(c: Tcp) returns (n: Tcp)
    requires Reached(St(c, [], []), true) && c.s.phase == Leaving
    ensures Reached(St(n, [], []), true) && n.s.phase == Gone && !n.s.inbox.listed && n.s.drain == c.s.drain
    ensures n.s.inbox.hand == c.s.inbox.hand
    ensures n.k == c.k && n.i == c.i && n.o == c.o
  {
    hide Reached, LoopEffect, DialEffect;
    var c1 := c.(s := c.s.(phase := Unlisted, inbox := c.s.inbox.(listed := false)));
    Silent(c, SUnlist, c1, [], [], true);
    n := c1.(s := c1.s.(phase := Gone, inbox := c1.s.inbox.(done := true)));
    Silent(c1, SDone, n, [], [], true);
  }

  lemma {:induction false} PublicEnds(c: Tcp) returns (n: Tcp)
    requires Reached(St(c, [], []), true) && Flows(c)
    ensures Reached(St(n, [], []), true) && n == c.(s := c.s.(phase := Closing))
  {
    hide Reached, LoopEffect, DialEffect;
    n := c.(s := c.s.(phase := Closing));
    Silent(c, SRead([], true, true), n, [], [], true);
  }

  lemma {:induction false} AllEnds(c: Tcp) returns (n: Tcp)
    requires Reached(St(c, [], []), true) && Flows(c)
    ensures Reached(St(n, [], []), true) && n.s.phase == Gone && n.s.drain == Stopped && n.k.phase == Ended
    ensures n.s.inbox.hand.None? && !n.s.inbox.listed && !n.k.relay && n.k.hand.None? && n.i == c.i && n.o == c.o
  {
    hide Reached, Effect;
    var c1 := PublicEnds(c);
    RelayCloses(c1);
    var c2 := c1.(s := c1.s.(phase := Leaving), k := c1.k.(relay := false, done := true),
                  n := c1.n.(closeHandled := true));
    ClientSees(c2);
    ClientLeaves(c2.(k := c2.k.(phase := ExitDone)));
    var c3 := c2.(k := c2.k.(phase := Ended, closeSent := true));
    DrainEnds(c3);
    n := c3.(s := c3.s.(drain := Stopped, inbox := c3.s.inbox.(listed := false, closed := true)));
    n := ServerLeaves(n);
  }

  /** Any peeked prefix, any bytes after it, any answer: a smooth run to the end of both sides, with
      both links empty and both tables without the ID, in which everything is written. It meets
      the conditions of the delivery lemmas of both directions. */
  lemma {:induction false} DeliveryHappens(prefix: Bytes, b: Bytes, x: Bytes) returns (sts: seq<St>, acts: seq<Act>)
    ensures Run(sts, acts) && Smooth(sts, acts, |acts|) && SmoothBack(sts, acts, |acts|)
    ensures var st := sts[|acts|];
            && st.down == [] && st.up == [] && st.c.s.phase == Gone && st.c.k.phase == Ended
            && st.c.k.hand.None? && st.c.s.inbox.hand.None? && !st.c.s.inbox.listed && !st.c.k.relay
            && st.c.i.prefix == prefix && st.c.i.read == b && st.c.i.written == prefix + b
            && st.c.s.drain == Stopped && st.c.o.read == st.c.o.written == x
  {
    var c := Starts(prefix);
    hide Reached, Smooth, SmoothBack, Run;
    c := InAll(c, b);
    c := OutAll(c, x);
    assert [] + b == b && [] + x == x;
    c := AllEnds(c);
    sts, acts := SmoothRun(St(c, [], []));
  }
}
