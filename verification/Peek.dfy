/**
 Peeking at a ClientHello that arrives in pieces, and routing the connection by it.
 */
module Peek {
  import opened Basics
  import opened BigEndian
  import opened ClientHelloParser
  import opened Subdomain

  const PEEK_LIMIT := 8192
  const READ_SIZE := 1024

  /** What one conn.Read returned: up to 1024 bytes and whether it failed. Reading past the
      end of the script is the read deadline expiring. */
  datatype Read = Read(data: Bytes, failed: bool)

  ghost predicate Possible(script: seq<Read>) {
    forall i :: 0 <= i < |script| ==> |script[i].data| <= READ_SIZE
  }

  /** The bytes of the first k reads. */
  function Upto(script: seq<Read>, k: nat): Bytes
    requires k <= |script|
  {
    if k == 0 then [] else Upto(script, k - 1) + script[k - 1].data
  }

  lemma {:induction false} UptoPrefix(script: seq<Read>, j: nat, k: nat)
    requires j <= k <= |script|
    ensures Upto(script, j) <= Upto(script, k)
  {
    if j == k {
    } else {
      UptoPrefix(script, j, k - 1);
    }
  }

  /** After k reads the loop goes on: the limit is not reached and there is no name yet. */
  ghost predicate Undecided(script: seq<Read>, k: nat)
    requires k <= |script|
  {
    |Upto(script, k)| < PEEK_LIMIT && Sni(Upto(script, k)).None?
  }

  /** What a peek promises about the script it consumed. */
  ghost predicate Outcome(script: seq<Read>, used: nat, prefix: Bytes, sni: Option<Bytes>) {
    && used <= |script|
    && prefix == Upto(script, used)
    && sni == Sni(prefix)
    && (forall k :: 0 <= k < used ==> Undecided(script, k))
    && (forall k :: 0 <= k < used - 1 ==> !script[k].failed)
    && (sni.None? ==> |prefix| >= PEEK_LIMIT || used == |script| || (used > 0 && script[used - 1].failed))
  }

  /** Before a read: every earlier read left the loop undecided. */
  ghost predicate Gathering(script: seq<Read>, used: nat, prefix: Bytes) {
    && used <= |script| && prefix == Upto(script, used) && |prefix| <= 9215
    && (forall k :: 0 <= k < used ==> Undecided(script, k) && !script[k].failed)
  }

  lemma {:induction false} GatherStart(script: seq<Read>)
    ensures Gathering(script, 0, []) && Sni([]).None?
  {
  }

  /** What one more read leads to: a name, a failure, or another round. */
  lemma {:induction false} OneMoreRead(script: seq<Read>, used: nat, prefix: Bytes)
    requires Possible(script) && Gathering(script, used, prefix)
    requires used < |script| && |prefix| < PEEK_LIMIT && Sni(prefix).None?
    ensures var p := prefix + script[used].data;
            && |p| <= 9215
            && (Sni(p).Some? || script[used].failed ==> Outcome(script, used + 1, p, Sni(p)))
            && (!script[used].failed ==> Gathering(script, used + 1, p))
  {
    hide Sni;
    assert Undecided(script, used);
  }

  lemma {:induction false} GatherStop(script: seq<Read>, used: nat, prefix: Bytes)
    requires Gathering(script, used, prefix) && Sni(prefix).None?
    requires |prefix| >= PEEK_LIMIT || used == |script|
    ensures Outcome(script, used, prefix, None) && |prefix| <= 9215
  {
    hide Sni;
  }

  method PeekClientHello(script: seq<Read>) returns (used: nat, prefix: Bytes, sni: Option<Bytes>)
    requires Possible(script)
    ensures Outcome(script, used, prefix, sni)
    ensures |prefix| <= 9215
  {
    hide Sni, Outcome;
    used, prefix, sni := 0, [], None;
    GatherStart(script);
    while |prefix| < PEEK_LIMIT && used < |script|
      invariant Gathering(script, used, prefix) && Sni(prefix).None?
    {
      OneMoreRead(script, used, prefix);
      var r := script[used];
      assert |r.data| == 0 ==> prefix + r.data == prefix;
      used := used + 1;
      if |r.data| > 0 {
        prefix := prefix + r.data;
        var name := ExtractSNI(prefix);
        if name.Some? {
          return used, prefix, name;
        }
      }
      if r.failed {
        return;
      }
    }
    GatherStop(script, used, prefix);
  }

  ghost predicate ErrorFree(script: seq<Read>) {
    Possible(script) && forall i :: 0 <= i < |script| ==> !script[i].failed && script[i].data != []
  }

  /** The name does not depend on how the bytes were cut into reads: while the record fits
      the 8192-byte limit, the peek answers exactly what the whole stream says. */
  lemma {:induction false} ChunkingIndependent(script: seq<Read>, used: nat, prefix: Bytes, sni: Option<Bytes>)
    requires ErrorFree(script) && Outcome(script, used, prefix, sni)
    requires var all := Upto(script, |script|); 5 <= |all| && RecordLen(all) <= |all| && RecordLen(all) <= PEEK_LIMIT
    ensures sni == Sni(Upto(script, |script|))
  {
    var all := Upto(script, |script|);
    UptoPrefix(script, used, |script|);
    assert all == prefix + all[|prefix|..];
    RecordDecides(prefix, all[|prefix|..]);
    if |prefix| >= 5 {
      assert prefix[3..5] == all[3..5];
    }
  }

  /** A record longer than 9215 bytes is never recognised, however it arrives. */
  lemma {:induction false} TooLongNeverFound(script: seq<Read>, used: nat, prefix: Bytes, sni: Option<Bytes>)
    requires Possible(script) && Outcome(script, used, prefix, sni)
    requires 5 <= |prefix| && RecordLen(prefix) > 9215
    ensures sni.None?
  {
    RecordDecides(prefix, []);
    if used > 0 {
      assert Undecided(script, used - 1);
    }
  }

  /** data cut into reads of 1024 bytes, the last one shorter. */
  function Cut(data: Bytes): seq<Read> {
    if data == [] then []
    else if |data| <= READ_SIZE then [Read(data, false)]
    else [Read(data[..READ_SIZE], false)] + Cut(data[READ_SIZE..])
  }

  lemma {:induction false} UptoCons(r: Read, rs: seq<Read>, k: nat)
    requires k <= |rs|
    ensures Upto([r] + rs, k + 1) == r.data + Upto(rs, k)
  {
    if k == 0 {
      assert Upto([r] + rs, 1) == Upto([r] + rs, 0) + r.data;
    } else {
      UptoCons(r, rs, k - 1);
      assert ([r] + rs)[k] == rs[k - 1];
      assert r.data + (Upto(rs, k - 1) + rs[k - 1].data) == r.data + Upto(rs, k - 1) + rs[k - 1].data;
    }
  }

  lemma {:induction false} CutAll(data: Bytes)
    ensures ErrorFree(Cut(data)) && Upto(Cut(data), |Cut(data)|) == data
    ensures |data| <= |Cut(data)| * READ_SIZE < |data| + READ_SIZE
  {
    if |data| > READ_SIZE {
      CutAll(data[READ_SIZE..]);
      UptoCons(Read(data[..READ_SIZE], false), Cut(data[READ_SIZE..]), |Cut(data[READ_SIZE..])|);
    } else if data != [] {
      assert Cut(data) == [Read(data, false)];
      assert Upto(Cut(data), 1) == Upto(Cut(data), 0) + data;
    }
  }

  lemma {:induction false} CutAt(data: Bytes, k: nat)
    requires k * READ_SIZE <= |data|
    ensures k <= |Cut(data)| && |Upto(Cut(data), k)| == k * READ_SIZE
  {
    if k == 0 {
    } else {
      if |data| > READ_SIZE {
        CutAt(data[READ_SIZE..], k - 1);
        UptoCons(Read(data[..READ_SIZE], false), Cut(data[READ_SIZE..]), k - 1);
      } else {
        CutAll(data);
      }
    }
  }

  lemma {:induction false} IncompleteUndecided(data: Bytes, p: Bytes)
    requires 5 <= |data| && p <= data && |p| < RecordLen(data)
    ensures Sni(p).None?
  {
    RecordDecides(p, []);
    if |p| >= 5 {
      assert p[3..5] == data[3..5];
    }
  }

  /** Cut so that the limit is reached before the record ends, the name is missed... */
  lemma {:induction false} MissedWhenCutAtTheLimit(data: Bytes, used: nat, prefix: Bytes, sni: Option<Bytes>)
    requires |data| >= 5 && RecordLen(data) == |data| && PEEK_LIMIT < |data| <= 9215
    requires Outcome(Cut(data), used, prefix, sni)
    ensures sni.None?
  {
    var script := Cut(data);
    CutAll(data);
    CutAt(data, 8);
    assert !Undecided(script, 8);
    UptoPrefix(script, used, 8);
    UptoPrefix(script, used, |script|);
    IncompleteUndecided(data, prefix);
  }

  /** ... and with the same bytes cut one byte earlier, it is found: between 8193 and 9215
      bytes the answer does depend on the cuts. */
  lemma {:induction false} FoundWhenCutBeforeTheLimit(data: Bytes, used: nat, prefix: Bytes, sni: Option<Bytes>)
    requires |data| >= 5 && RecordLen(data) == |data| && PEEK_LIMIT < |data| <= 9215 && Sni(data).Some?
    requires Outcome(Cut(data[..8191]) + [Read(data[8191..], false)], used, prefix, sni)
    ensures ErrorFree(Cut(data[..8191]) + [Read(data[8191..], false)])
    ensures sni == Sni(data)
  {
    hide Sni, Cut, RecordLen;
    var head := Cut(data[..8191]);
    var script := head + [Read(data[8191..], false)];
    CutAll(data[..8191]);
    UptoSame(head, script, |head|);
    assert Upto(script, |script|) == data[..8191] + data[8191..] == data;
    UptoPrefix(script, used, |script|);
    if used < |script| {
      UptoPrefix(script, used, |head|);
      IncompleteUndecided(data, prefix);
    }
  }

  lemma {:induction false} UptoSame(a: seq<Read>, b: seq<Read>, k: nat)
    requires a <= b && k <= |a|
    ensures Upto(a, k) == Upto(b, k)
  {
    if k == 0 {
    } else {
      UptoSame(a, b, k - 1);
    }
  }

  /** route's decision, with the registry as a map from subdomain to tunnel. */
  ghost function Route<T>(sni: Option<Bytes>, baseDomain: Bytes, registry: map<Bytes, T>): Option<T> {
    match sni
    case None => None
    case Some(name) =>
      var sub := ExtractSubdomain(name, baseDomain);
      if sub == [] || sub !in registry then None else Some(registry[sub])
  }

  /** However the record was cut into reads and whatever follows it, the peek returns the
      announced name and keeps every byte of the record for the tunnel. */
  lemma {:induction false} HelloIsRecognised(h: ClientHello, name: Bytes, script: seq<Read>, used: nat, prefix: Bytes,
                                             sni: Option<Bytes>)
    requires WellFormed(h) && |RecordBytes(h)| <= PEEK_LIMIT && Announces(h.extensions, name)
    requires ErrorFree(script) && RecordBytes(h) <= Upto(script, |script|) && Outcome(script, used, prefix, sni)
    ensures sni == Some(name) && RecordBytes(h) <= prefix
  {
    var all, rec := Upto(script, |script|), RecordBytes(h);
    assert all == rec + all[|rec|..];
    WellFormedHello(h, all[|rec|..], name);
    assert |all| >= 5 && RecordLen(all) == |rec|;
    ChunkingIndependent(script, used, prefix, sni);
    UptoPrefix(script, used, |script|);
    if |prefix| < |rec| {
      IncompleteUndecided(all, prefix);
    }
  }

  /** End to end: a hello that announces a registered tunnel's own name reaches that tunnel. */
  lemma {:induction false} HelloReachesItsTunnel<T>(h: ClientHello, subdomain: Bytes, baseDomain: Bytes,
                                                    registry: map<Bytes, T>,
                                 script: seq<Read>, used: nat, prefix: Bytes, sni: Option<Bytes>)
    requires WellFormed(h) && |RecordBytes(h)| <= PEEK_LIMIT
    requires Announces(h.extensions, PublicURL(subdomain, StripPort(baseDomain)))
    requires subdomain != [] && ValidSubdomain(subdomain) && subdomain in registry
    requires ErrorFree(script) && RecordBytes(h) <= Upto(script, |script|) && Outcome(script, used, prefix, sni)
    ensures Route(sni, baseDomain, registry) == Some(registry[subdomain])
    ensures RecordBytes(h) <= prefix
  {
    HelloIsRecognised(h, PublicURL(subdomain, StripPort(baseDomain)), script, used, prefix, sni);
    OwnURL(subdomain, baseDomain, []);
  }
}
