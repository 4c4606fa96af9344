/**
 The client's list of forwards, in registration order.
 */
module ForwardList {
  import opened Basics
  import Wire = FrameCodec

  datatype Forward = Forward(id: Wire.u64, port: u16)

  ghost predicate Distinct(fw: seq<Forward>) {
    forall i, j :: 0 <= i < j < |fw| ==> fw[i].id != fw[j].id
  }

  /** The list as the mapping it stands for. */
  function Listed(fw: seq<Forward>): map<Wire.u64, u16> {
    if fw == [] then map[] else Listed(fw[..|fw| - 1])[fw[|fw| - 1].id := fw[|fw| - 1].port]
  }

  /** The list without the first forward of the tunnel. */
  function Removed(fw: seq<Forward>, id: Wire.u64): seq<Forward> {
    if fw == [] then [] else if fw[0].id == id then fw[1..] else [fw[0]] + Removed(fw[1..], id)
  }

  /** The position of the first forward of the tunnel. */
  function Find(fw: seq<Forward>, id: Wire.u64): (r: Option<nat>)
    ensures r.Some? ==> r.value < |fw| && fw[r.value].id == id && forall j :: 0 <= j < r.value ==> fw[j].id != id
    ensures r.None? ==> forall j :: 0 <= j < |fw| ==> fw[j].id != id
  {
    if fw == [] then None
    else if fw[0].id == id then Some(0)
    else
      match Find(fw[1..], id)
      case None => assert forall j :: 1 <= j < |fw| ==> fw[j] == fw[1..][j - 1]; None
      case Some(i) => assert forall j :: 1 <= j <= i ==> fw[j] == fw[1..][j - 1]; Some(i + 1)
  }

  class Forwards {
    var forwards: seq<Forward>

    constructor ()
      ensures forwards == []
    {
      forwards := [];
    }

    method SetMapping(id: Wire.u64, port: u16)
      modifies this
      ensures forwards == old(forwards) + [Forward(id, port)]
    {
      forwards := forwards + [Forward(id, port)];
    }

    method RemoveMapping(id: Wire.u64)
      modifies this
      ensures forwards == Removed(old(forwards), id)
    {
      RemovedIs(forwards, id);
      for i := 0 to |forwards|
        invariant forwards == old(forwards)
        invariant forall j :: 0 <= j < i ==> forwards[j].id != id
      {
        if forwards[i].id == id {
          assert Find(forwards, id) == Some(i);
          forwards := forwards[..i] + forwards[i + 1..];
          return;
        }
      }
    }

    method PortFor(id: Wire.u64) returns (r: Option<u16>)
      ensures Distinct(forwards) ==> r == if id in Listed(forwards) then Some(Listed(forwards)[id]) else None
    {
      for i := 0 to |forwards|
        invariant forall j :: 0 <= j < i ==> forwards[j].id != id
      {
        if forwards[i].id == id {
          if Distinct(forwards) {
            ListedAt(forwards, i);
          }
          return Some(forwards[i].port);
        }
      }
      ListedKeys(forwards, id);
      return None;
    }
  }

  lemma {:induction false} ListedKeys(fw: seq<Forward>, id: Wire.u64)
    ensures id in Listed(fw) <==> exists i :: 0 <= i < |fw| && fw[i].id == id
  {
    if fw == [] {
    } else {
      var n := |fw| - 1;
      ListedKeys(fw[..n], id);
      if fw[n].id != id && id in Listed(fw) {
        var i :| 0 <= i < n && fw[..n][i].id == id;
        assert fw[i].id == id;
      }
      if i :| 0 <= i < |fw| && fw[i].id == id {
        if i < n {
          assert fw[..n][i].id == id;
        }
      }
    }
  }

  lemma {:induction false} ListedAt(fw: seq<Forward>, i: nat)
    requires Distinct(fw) && i < |fw|
    ensures fw[i].id in Listed(fw) && Listed(fw)[fw[i].id] == fw[i].port
  {
    var n := |fw| - 1;
    if i == n {
    } else {
      ListedAt(fw[..n], i);
    }
  }

  /** Removing from a list without duplicates removes from the mapping. */
  lemma {:induction false} ListedRemoved(fw: seq<Forward>, id: Wire.u64)
    requires Distinct(fw)
    ensures Distinct(Removed(fw, id)) && Listed(Removed(fw, id)) == Listed(fw) - {id}
  {
    RemovedIs(fw, id);
    hide Removed, Listed;
    match Find(fw, id) {
      case None => ListedKeys(fw, id);
      case Some(i) => ListedSplit(fw, i);
    }
  }

  lemma {:induction false} RemovedIs(fw: seq<Forward>, id: Wire.u64)
    ensures Removed(fw, id) == match Find(fw, id) case None => fw case Some(i) => fw[..i] + fw[i + 1..]
  {
    if fw != [] && fw[0].id != id {
      var t := fw[1..];
      RemovedIs(t, id);
      match Find(t, id) {
        case None => assert [fw[0]] + t == fw;
        case Some(i) => assert [fw[0]] + (t[..i] + t[i + 1..]) == fw[..i + 1] + fw[i + 2..];
      }
    }
  }

  function Put(m: map<Wire.u64, u16>, f: Forward): map<Wire.u64, u16> { m[f.id := f.port] }

  lemma {:induction false} ListedSnoc(fw: seq<Forward>, f: Forward)
    ensures Listed(fw + [f]) == Put(Listed(fw), f)
  {
    assert (fw + [f])[..|fw|] == fw;
  }

  lemma {:induction false} PutDrop(m: map<Wire.u64, u16>, f: Forward, id: Wire.u64)
    ensures id != f.id ==> Put(m - {id}, f) == Put(m, f) - {id}
    ensures id == f.id && id !in m ==> Put(m, f) - {id} == m
  {
  }

  lemma {:induction false} DistinctSplit(fw: seq<Forward>, i: nat)
    requires Distinct(fw) && i < |fw|
    ensures Distinct(fw[..i] + fw[i + 1..]) && Distinct(fw[..|fw| - 1])
  {
    var r := fw[..i] + fw[i + 1..];
    assert forall j :: 0 <= j < |r| ==> r[j] == fw[if j < i then j else j + 1];
  }

  lemma {:induction false} ListedSplit(fw: seq<Forward>, i: nat)
    requires Distinct(fw) && i < |fw|
    ensures Distinct(fw[..i] + fw[i + 1..]) && Listed(fw[..i] + fw[i + 1..]) == Listed(fw) - {fw[i].id}
  {
    var n := |fw| - 1;
    var f, m := fw[n], Listed(fw[..n]);
    DistinctSplit(fw, i);
    hide Listed;
    assert fw == fw[..n] + [f];
    ListedSnoc(fw[..n], f);
    PutDrop(m, f, fw[i].id);
    if i == n {
      assert fw[..i] + fw[i + 1..] == fw[..n];
      ListedKeys(fw[..n], f.id);
    } else {
      ListedSplit(fw[..n], i);
      var r := fw[..n][..i] + fw[..n][i + 1..];
      assert fw[..i] + fw[i + 1..] == r + [f];
      ListedSnoc(r, f);
    }
  }
}
