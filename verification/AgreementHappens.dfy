/**
 Operations on a live connection that meet nothing in their way do what they are for: an add
 that the server grants lists the forward on both sides, a remove takes it off both, and what
 the server refuses changes nothing.
 */
module AgreementHappens {
  import opened Basics
  import opened ForwardList
  import opened Agreement

  ghost predicate Chain(ss: seq<State>, acts: seq<Act>) {
    && |ss| == |acts| + 1
    && forall i :: 0 <= i < |acts| ==> Step(false, ss[i], acts[i]) == Some(ss[i + 1])
  }

  ghost predicate Leads(s: State, n: State) {
    exists ss, acts :: Chain(ss, acts) && ss[0] == s && ss[|acts|] == n
  }

  lemma {:induction false} Stays(s: State)
    ensures Leads(s, s)
  {
    var ss, acts: seq<Act> := [s], [];
    assert Chain(ss, acts);
  }

  lemma {:induction false} Then(s: State, m: State, a: Act, n: State)
    requires Leads(s, m) && Step(false, m, a) == Some(n)
    ensures Leads(s, n)
  {
    hide Step;
    var ss, acts :| Chain(ss, acts) && ss[0] == s && ss[|acts|] == m;
    var ss', acts' := ss + [n], acts + [a];
    forall i | 0 <= i < |acts'| ensures Step(false, ss'[i], acts'[i]) == Some(ss'[i + 1]) {
      if i < |acts| {
        assert ss'[i] == ss[i] && ss'[i + 1] == ss[i + 1] && acts'[i] == acts[i];
      }
    }
    assert Chain(ss', acts') && ss'[0] == s && ss'[|acts'|] == n;
  }

  /** Nothing is outstanding and nothing on the links. */
  ghost predicate Still(s: State) { Quiet(s) && s.up == [] && s.down == [] }

  /** An add that the server grants, with the fresh ID it draws. */
  lemma {:induction false} AddHappens(s: State, port: u16, id: Id)
    requires Still(s) && id !in s.ids
    ensures Leads(s, s.(fw := s.fw + [Forward(id, port)], http := s.http[id := port], ids := s.ids + {id},
                        known := s.known + {id}))
  {
    Stays(s);
    hide Leads;
    var s1 := s.(add := Some(Add(port, false)));
    Then(s, s, AddBegin(port), s1);
    assert [] + [Register(port)] == [Register(port)] && [Register(port)][1..] == [];
    var s2 := s.(add := Some(Add(port, true)), up := [Register(port)]);
    Then(s, s1, AddSend(true), s2);
    assert [] + [RegisterOK(id)] == [RegisterOK(id)] && [RegisterOK(id)][1..] == [];
    assert PutPort(s.http, id, port) == s.http[id := port];
    var s3 := s2.(up := [], down := [RegisterOK(id)], http := s.http[id := port], ids := s.ids + {id});
    Then(s, s2, ServerGrants(id), s3);
    var s4 := s3.(down := [], add := None, loop := Setting(id, port));
    Then(s, s3, ClientReply, s4);
    Then(s, s4, ClientList, s4.(loop := Free, fw := s.fw + [Forward(id, port)], known := s.known + {id}));
  }

  /** An add that the server refuses. */
  lemma {:induction false} RefusalHappens(s: State, port: u16)
    requires Still(s)
    ensures exists via: State :: Leads(s, via) && via.down == [RegisterErr] && Leads(via, s)
  {
    Stays(s);
    hide Leads;
    var s1 := s.(add := Some(Add(port, false)));
    Then(s, s, AddBegin(port), s1);
    assert [] + [Register(port)] == [Register(port)] && [Register(port)][1..] == [];
    var s2 := s.(add := Some(Add(port, true)), up := [Register(port)]);
    Then(s, s1, AddSend(true), s2);
    assert [] + [RegisterErr] == [RegisterErr] && [RegisterErr][1..] == [];
    var s3 := s2.(up := [], down := [RegisterErr]);
    Then(s, s2, ServerRefuses, s3);
    Stays(s3);
    Then(s3, s3, ClientReply, s);
  }

  /** A request to remove a listed forward reaches the server. */
  lemma {:induction false} RemovalSent(s: State, id: Id)
    requires Still(s) && id in s.known
    ensures Leads(s, s.(del := Some(Del(id, true)), up := [Unregister(id)]))
  {
    Stays(s);
    hide Leads;
    var s1 := s.(del := Some(Del(id, false)));
    Then(s, s, DelBegin(id), s1);
    assert [] + [Unregister(id)] == [Unregister(id)];
    Then(s, s1, DelSend(true), s.(del := Some(Del(id, true)), up := [Unregister(id)]));
  }

  /** An HTTP forward goes from both sides. */
  lemma {:induction false} RemovalHappens(s: State, id: Id)
    requires Still(s) && id in s.known && id in s.http
    ensures Leads(s, s.(fw := Removed(s.fw, id), http := s.http - {id}))
  {
    RemovalSent(s, id);
    hide Leads, Removed;
    var s2 := s.(del := Some(Del(id, true)), up := [Unregister(id)]);
    assert [] + [UnregisterOK] == [UnregisterOK] && [UnregisterOK][1..] == [] && [Unregister(id)][1..] == [];
    var s3 := s2.(up := [], down := [UnregisterOK], http := s.http - {id});
    Then(s, s2, ServerDrops, s3);
    var s4 := s3.(down := [], del := None, loop := Removing(id));
    Then(s, s3, ClientReply, s4);
    Then(s, s4, ClientList, s4.(loop := Free, fw := Removed(s.fw, id)));
  }

  /** Any other forward stays on both: the server answers that it does not know it. */
  lemma {:induction false} OtherRemovalFails(s: State, id: Id)
    requires Still(s) && id in s.known && id !in s.http
    ensures exists via: State :: Leads(s, via) && via.down == [UnregisterErr] && Leads(via, s)
  {
    RemovalSent(s, id);
    hide Leads;
    var s2 := s.(del := Some(Del(id, true)), up := [Unregister(id)]);
    assert [] + [UnregisterErr] == [UnregisterErr] && [UnregisterErr][1..] == [] && [Unregister(id)][1..] == [];
    var s3 := s2.(up := [], down := [UnregisterErr]);
    Then(s, s2, ServerDrops, s3);
    Stays(s3);
    Then(s3, s3, ClientReply, s);
  }

  lemma {:induction false} RemovedLast(fw: seq<Forward>, id: Id, port: u16)
    requires forall i :: 0 <= i < |fw| ==> fw[i].id != id
    ensures Removed(fw + [Forward(id, port)], id) == fw
  {
    if fw == [] {
      assert fw + [Forward(id, port)] == [Forward(id, port)];
    } else {
      assert (fw + [Forward(id, port)])[1..] == fw[1..] + [Forward(id, port)];
      RemovedLast(fw[1..], id, port);
    }
  }

  /** Without timeouts, when no operation is outstanding the links are empty. */
  lemma {:induction false} QuietIsStill(s: State)
    requires Reachable(false, s) && Quiet(s)
    ensures Still(s) && Apart(s) && forall i :: 0 <= i < |s.fw| ==> s.fw[i].id in s.ids
  {
    hide Step, Initial;
    var ss, acts :| Run(false, ss, acts) && ss[|acts|] == s;
    RunInv(ss, acts, |acts|);
    forall i | 0 <= i < |s.fw| ensures s.fw[i].id in s.ids {
      ListedKeys(s.fw, s.fw[i].id);
    }
    hide Run;
  }

  /** Whenever nothing is outstanding, adding a forward puts it on both sides, and removing it again
      restores the client's list and the server's table. */
  lemma {:induction false} AddThenRemove(s: State, port: u16, id: Id)
    requires Reachable(false, s) && Quiet(s) && id !in s.ids
    ensures var n := s.(ids := s.ids + {id}, known := s.known + {id});
            exists via: State ::
              && Leads(s, via) && via.fw == s.fw + [Forward(id, port)] && via.http == s.http[id := port]
              && Leads(via, n)
  {
    QuietIsStill(s);
    hide Leads, Reachable;
    AddHappens(s, port, id);
    var v := s.(fw := s.fw + [Forward(id, port)], http := s.http[id := port], ids := s.ids + {id},
                known := s.known + {id});
    RemovalHappens(v, id);
    RemovedLast(s.fw, id, port);
    assert s.http[id := port] - {id} == s.http;
  }

  /** And what cannot be done changes nothing: an add the server refuses, a remove of a TCP or TLS
      forward, which the server does not know by that name. */
  lemma {:induction false} RefusedChangesNothing(s: State, port: u16, id: Id)
    requires Reachable(false, s) && Quiet(s)
    ensures exists via: State :: Leads(s, via) && via.down == [RegisterErr] && Leads(via, s)
    ensures id in s.known && id !in s.http ==>
              exists via: State :: Leads(s, via) && via.down == [UnregisterErr] && Leads(via, s)
  {
    QuietIsStill(s);
    hide Leads, Reachable;
    RefusalHappens(s, port);
    if id in s.known && id !in s.http {
      OtherRemovalFails(s, id);
    }
  }
}
