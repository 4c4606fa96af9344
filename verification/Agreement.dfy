/**
 Adding and removing forwards on a live connection. The client lists its forwards, the
 server keeps a table; requests and replies travel on the two ordered links. A reply names
 no request: the client takes it for the one operation of its kind that is outstanding.
 */
module Agreement {
  import opened Basics
  import opened ForwardList
  import Wire = FrameCodec

  type Id = Wire.u64

  datatype Request = Register(port: u16) | Unregister(id: Id)

  datatype Reply = RegisterOK(id: Id) | RegisterErr | UnregisterOK | UnregisterErr

  /** addCh with addPort, and delCh with delID; `sent` once the request is on the link. */
  datatype Add = Add(port: u16, sent: bool)
  datatype Del = Del(id: Id, sent: bool)

  /** The client's frame loop between taking the operation and changing the list. */
  datatype Loop = Free | Setting(id: Id, port: u16) | Removing(id: Id)

  /** `http` and `other` are the server's tables with the port each tunnel was registered
      for; the server answers Unregister from the first only. `ids` are the IDs handed out,
      `known` those that were ever listed by the client. */
  datatype State = State(fw: seq<Forward>, add: Option<Add>, del: Option<Del>, loop: Loop,
                         up: seq<Request>, down: seq<Reply>,
                         http: map<Id, u16>, other: map<Id, u16>, ids: set<Id>, known: set<Id>)

  // ---- Steps ------------------------------------------------------------

  datatype Act =
    | AddBegin(port: u16) | AddSend(ok: bool) | AddTimeout
    | DelBegin(id: Id) | DelSend(ok: bool) | DelTimeout
    | ServerGrants(id: Id) | ServerRefuses | ServerDrops
    | ClientReply | ClientList

  function BeginAdd(s: State, port: u16): Option<State> {
    if s.add.None? then Some(s.(add := Some(Add(port, false)))) else None
  }

  function SendAdd(s: State, ok: bool): Option<State> {
    if s.add.None? || s.add.value.sent then None
    else if ok then Some(s.(add := Some(Add(s.add.value.port, true)), up := s.up + [Register(s.add.value.port)]))
    else Some(s.(add := None))
  }

  /** RemovePort found the ID in the list, at this or an earlier moment. */
  function BeginDel(s: State, id: Id): Option<State> {
    if s.del.None? && id in s.known then Some(s.(del := Some(Del(id, false)))) else None
  }

  function SendDel(s: State, ok: bool): Option<State> {
    if s.del.None? || s.del.value.sent then None
    else if ok then Some(s.(del := Some(Del(s.del.value.id, true)), up := s.up + [Unregister(s.del.value.id)]))
    else Some(s.(del := None))
  }

  function PutPort(m: map<Id, u16>, id: Id, port: u16): map<Id, u16> { m[id := port] }

  function Grant(s: State, id: Id): Option<State> {
    if s.up != [] && s.up[0].Register? && id !in s.ids then
      Some(s.(up := s.up[1..], down := s.down + [RegisterOK(id)],
              http := PutPort(s.http, id, s.up[0].port), ids := s.ids + {id}))
    else None
  }

  function Refuse(s: State): Option<State> {
    if s.up != [] && s.up[0].Register? then Some(s.(up := s.up[1..], down := s.down + [RegisterErr])) else None
  }

  function Drop(s: State): Option<State> {
    if s.up == [] || !s.up[0].Unregister? then None
    else if s.up[0].id in s.http then
      Some(s.(up := s.up[1..], down := s.down + [UnregisterOK], http := s.http - {s.up[0].id}))
    else Some(s.(up := s.up[1..], down := s.down + [UnregisterErr]))
  }

  /** handleAddResponse and handleDelResponse, up to the change of the list. */
  function TakeReply(s: State): Option<State> {
    if s.down == [] || s.loop != Free then None
    else
      var n := s.(down := s.down[1..]);
      match s.down[0]
      case RegisterOK(id) => if s.add.None? then Some(n)
        else Some(n.(add := None, loop := Setting(id, s.add.value.port)))
      case RegisterErr => Some(n.(add := None))
      case UnregisterOK => if s.del.None? then Some(n) else Some(n.(del := None, loop := Removing(s.del.value.id)))
      case UnregisterErr => Some(n.(del := None))
  }

  function ChangeList(s: State): Option<State> {
    match s.loop
    case Free => None
    case Setting(id, port) => Some(s.(loop := Free, fw := s.fw + [Forward(id, port)], known := s.known + {id}))
    case Removing(id) => Some(s.(loop := Free, fw := Removed(s.fw, id)))
  }

  function Step(timeouts: bool, s: State, a: Act): Option<State> {
    match a
    case AddBegin(port) => BeginAdd(s, port)
    case AddSend(ok) => SendAdd(s, ok)
    case AddTimeout => if timeouts then Some(s.(add := None)) else None
    case DelBegin(id) => BeginDel(s, id)
    case DelSend(ok) => SendDel(s, ok)
    case DelTimeout => if timeouts then Some(s.(del := None)) else None
    case ServerGrants(id) => Grant(s, id)
    case ServerRefuses => Refuse(s)
    case ServerDrops => Drop(s)
    case ClientReply => TakeReply(s)
    case ClientList => ChangeList(s)
  }

  /** What Connect leaves: every forward it registered is listed on both sides. */
  ghost predicate Initial(s: State) {
    && Distinct(s.fw) && Listed(s.fw) == Tunnels(s)
    && s.add.None? && s.del.None? && s.loop == Free && s.up == [] && s.down == []
    && s.ids == s.known == Tunnels(s).Keys && s.http.Keys !! s.other.Keys
  }

  ghost predicate Run(timeouts: bool, ss: seq<State>, acts: seq<Act>) {
    && |ss| == |acts| + 1 && Initial(ss[0])
    && forall i :: 0 <= i < |acts| ==> Step(timeouts, ss[i], acts[i]) == Some(ss[i + 1])
  }

  ghost predicate Reachable(timeouts: bool, s: State) {
    exists ss, acts :: Run(timeouts, ss, acts) && ss[|acts|] == s
  }

  /** The server's tunnels, each with the port of its own register frame. */
  function Tunnels(s: State): map<Id, u16> { s.other + s.http }

  /** No add and no remove is outstanding. */
  ghost predicate Quiet(s: State) { s.add.None? && s.del.None? && s.loop == Free }

  ghost predicate Agree(s: State) { Distinct(s.fw) && Listed(s.fw) == Tunnels(s) }

  // ---- What is on the links ---------------------------------------------

  function Adds(up: seq<Request>): seq<u16> {
    if up == [] then [] else if up[0].Register? then [up[0].port] + Adds(up[1..]) else Adds(up[1..])
  }

  function Dels(up: seq<Request>): seq<Id> {
    if up == [] then [] else if up[0].Unregister? then [up[0].id] + Dels(up[1..]) else Dels(up[1..])
  }

  function AddReply(r: Reply): seq<Option<Id>> {
    match r case RegisterOK(id) => [Some(id)] case RegisterErr => [None] case _ => []
  }

  function DelReply(r: Reply): seq<bool> {
    match r case UnregisterOK => [true] case UnregisterErr => [false] case _ => []
  }

  function AddReplies(down: seq<Reply>): seq<Option<Id>> {
    if down == [] then [] else AddReply(down[0]) + AddReplies(down[1..])
  }

  function DelReplies(down: seq<Reply>): seq<bool> {
    if down == [] then [] else DelReply(down[0]) + DelReplies(down[1..])
  }

  lemma {:induction false} UpSnoc(up: seq<Request>, r: Request)
    ensures Adds(up + [r]) == if r.Register? then Adds(up) + [r.port] else Adds(up)
    ensures Dels(up + [r]) == if r.Unregister? then Dels(up) + [r.id] else Dels(up)
  {
    if up == [] {
      assert up + [r] == [r];
    } else {
      assert (up + [r])[1..] == up[1..] + [r];
      UpSnoc(up[1..], r);
    }
  }

  lemma {:induction false} DownSplit(down: seq<Reply>)
    requires down != []
    ensures AddReplies(down) == AddReply(down[0]) + AddReplies(down[1..])
    ensures DelReplies(down) == DelReply(down[0]) + DelReplies(down[1..])
  {
  }

  lemma {:induction false} DownSnoc(down: seq<Reply>, r: Reply)
    ensures AddReplies(down + [r]) == AddReplies(down) + AddReply(r)
    ensures DelReplies(down + [r]) == DelReplies(down) + DelReply(r)
  {
    if down == [] {
      assert down + [r] == [r];
    } else {
      assert (down + [r])[1..] == down[1..] + [r];
      DownSnoc(down[1..], r);
      DownSplit(down);
      DownSplit(down + [r]);
      hide AddReplies, DelReplies, AddReply, DelReply;
      assert AddReply(down[0]) + (AddReplies(down[1..]) + AddReply(r)) == AddReplies(down) + AddReply(r);
      assert DelReply(down[0]) + (DelReplies(down[1..]) + DelReply(r)) == DelReplies(down) + DelReply(r);
    }
  }

  lemma {:induction false} UpHead(up: seq<Request>)
    requires up != []
    ensures Adds(up) == if up[0].Register? then [up[0].port] + Adds(up[1..]) else Adds(up[1..])
    ensures Dels(up) == if up[0].Unregister? then [up[0].id] + Dels(up[1..]) else Dels(up[1..])
  {
  }

  lemma {:induction false} DownHead(down: seq<Reply>)
    requires down != []
    ensures AddReplies(down) == AddReply(down[0]) + AddReplies(down[1..])
    ensures DelReplies(down) == DelReply(down[0]) + DelReplies(down[1..])
  {
  }

  // ---- Invariant of runs without a timeout ------------------------------

  ghost predicate AddOnLinks(add: Option<Add>, up: seq<Request>, down: seq<Reply>) {
    if add.None? || !add.value.sent then Adds(up) == [] && AddReplies(down) == []
    else (Adds(up) == [add.value.port] && AddReplies(down) == []) || (Adds(up) == [] && |AddReplies(down)| == 1)
  }

  ghost predicate DelOnLinks(del: Option<Del>, up: seq<Request>, down: seq<Reply>) {
    if del.None? || !del.value.sent then Dels(up) == [] && DelReplies(down) == []
    else (Dels(up) == [del.value.id] && DelReplies(down) == []) || (Dels(up) == [] && |DelReplies(down)| == 1)
  }

  /** The listing once the loop has made its change. */
  function Looped(m: map<Id, u16>, loop: Loop): map<Id, u16> {
    match loop
    case Free => m
    case Setting(id, port) => PutPort(m, id, port)
    case Removing(id) => m - {id}
  }

  /** And once the replies under way have been taken. */
  ghost function AddSeen(m: map<Id, u16>, add: Option<Add>, replies: seq<Option<Id>>): map<Id, u16> {
    if add.Some? && |replies| == 1 && replies[0].Some? then PutPort(m, replies[0].value, add.value.port) else m
  }

  ghost function DelSeen(m: map<Id, u16>, del: Option<Del>, replies: seq<bool>): map<Id, u16> {
    if del.Some? && replies == [true] then m - {del.value.id} else m
  }

  ghost function Due(m: map<Id, u16>, add: Option<Add>, del: Option<Del>, down: seq<Reply>): map<Id, u16> {
    DelSeen(AddSeen(m, add, AddReplies(down)), del, DelReplies(down))
  }

  /** IDs are fresh: one under way to the list was never in it. */
  ghost predicate FreshOk(listed: set<Id>, known: set<Id>, ids: set<Id>, loop: Loop,
                          del: Option<Del>, replies: seq<Option<Id>>) {
    && listed <= known <= ids
    && (loop.Setting? ==> loop.id in ids && loop.id !in known)
    && (del.Some? ==> del.value.id in known)
    && (forall r :: Some(r) in replies ==> r in ids && r !in known && (loop.Setting? ==> r != loop.id))
  }

  ghost predicate Apart(s: State) {
    s.http.Keys <= s.ids && s.other.Keys <= s.ids && s.http.Keys !! s.other.Keys && Distinct(s.fw)
  }

  ghost predicate Inv(s: State) {
    && AddOnLinks(s.add, s.up, s.down) && DelOnLinks(s.del, s.up, s.down) && Apart(s)
    && FreshOk(Listed(s.fw).Keys, s.known, s.ids, s.loop, s.del, AddReplies(s.down))
    && Due(Looped(Listed(s.fw), s.loop), s.add, s.del, s.down) == Tunnels(s)
  }

  lemma {:induction false} InitialInv(s: State)
    requires Initial(s)
    ensures Inv(s)
  {
  }

  /** Nothing outstanding: the two sides agree. */
  lemma {:induction false} QuietAgrees(s: State)
    requires Inv(s) && Quiet(s)
    ensures Agree(s)
  {
  }

  lemma {:induction false} AddBeginKeeps(s: State, port: u16)
    requires Inv(s) && BeginAdd(s, port).Some?
    ensures Inv(BeginAdd(s, port).value)
  {
    hide Adds, Dels, AddReplies, DelReplies, Listed, Looped;
  }

  lemma {:induction false} AddSendKeeps(s: State, ok: bool)
    requires Inv(s) && SendAdd(s, ok).Some?
    ensures Inv(SendAdd(s, ok).value)
  {
    UpSnoc(s.up, Register(s.add.value.port));
    hide Adds, Dels, AddReplies, DelReplies, Listed, Looped;
  }

  lemma {:induction false} DelBeginKeeps(s: State, id: Id)
    requires Inv(s) && BeginDel(s, id).Some?
    ensures Inv(BeginDel(s, id).value)
  {
    hide Adds, Dels, AddReplies, DelReplies, Listed, Looped;
  }

  lemma {:induction false} DelSendKeeps(s: State, ok: bool)
    requires Inv(s) && SendDel(s, ok).Some?
    ensures Inv(SendDel(s, ok).value)
  {
    hide Adds, Dels, AddReplies, DelReplies, Listed, Looped;
    UpSnoc(s.up, Unregister(s.del.value.id));
  }

  lemma {:induction false} GrantLinks(add: Option<Add>, del: Option<Del>, up: seq<Request>, down: seq<Reply>, r: Reply)
    requires AddOnLinks(add, up, down) && DelOnLinks(del, up, down) && up != [] && up[0].Register? && |AddReply(r)| == 1
    ensures AddOnLinks(add, up[1..], down + [r]) && DelOnLinks(del, up[1..], down + [r])
    ensures add.Some? && add.value.port == up[0].port && AddReplies(down) == []
    ensures AddReplies(down + [r]) == AddReply(r) && DelReplies(down + [r]) == DelReplies(down)
  {
    UpHead(up);
    DownSnoc(down, r);
    hide Adds, Dels, AddReplies, DelReplies;
  }

  lemma {:induction false} GrantDue(m: map<Id, u16>, add: Option<Add>, del: Option<Del>, down: seq<Reply>,
                                    n: seq<Reply>, id: Id)
    requires del.Some? ==> del.value.id != id
    requires add.Some? && AddReplies(down) == [] && AddReplies(n) == [Some(id)] && DelReplies(n) == DelReplies(down)
    ensures Due(m, add, del, n) == PutPort(Due(m, add, del, down), id, add.value.port)
  {
    hide AddReplies, DelReplies;
  }

  lemma {:induction false} GrantTables(s: State, id: Id, port: u16)
    requires Apart(s) && id !in s.ids
    ensures Apart(s.(http := PutPort(s.http, id, port), ids := s.ids + {id}))
    ensures s.other + PutPort(s.http, id, port) == PutPort(Tunnels(s), id, port)
  {
  }

  lemma {:induction false} GrantKeeps(s: State, id: Id)
    requires Inv(s) && Grant(s, id).Some?
    ensures Inv(Grant(s, id).value)
  {
    GrantLinks(s.add, s.del, s.up, s.down, RegisterOK(id));
    GrantTables(s, id, s.up[0].port);
    hide Adds, Dels, AddReplies, DelReplies, Listed, Looped, PutPort, AddOnLinks, DelOnLinks, Due;
    GrantDue(Looped(Listed(s.fw), s.loop), s.add, s.del, s.down, s.down + [RegisterOK(id)], id);
  }

  lemma {:induction false} RefuseKeeps(s: State)
    requires Inv(s) && Refuse(s).Some?
    ensures Inv(Refuse(s).value)
  {
    GrantLinks(s.add, s.del, s.up, s.down, RegisterErr);
    hide Adds, Dels, AddReplies, DelReplies, Listed, Looped, PutPort, AddOnLinks, DelOnLinks;
  }

  lemma {:induction false} DropLinks(add: Option<Add>, del: Option<Del>, up: seq<Request>, down: seq<Reply>, r: Reply)
    requires AddOnLinks(add, up, down) && DelOnLinks(del, up, down) && up != [] && up[0].Unregister?
    requires |DelReply(r)| == 1
    ensures AddOnLinks(add, up[1..], down + [r]) && DelOnLinks(del, up[1..], down + [r])
    ensures del.Some? && del.value.id == up[0].id && DelReplies(down) == []
    ensures AddReplies(down + [r]) == AddReplies(down) && DelReplies(down + [r]) == DelReply(r)
  {
    UpHead(up);
    DownSnoc(down, r);
    hide Adds, Dels, AddReplies, DelReplies;
  }

  lemma {:induction false} DropTables(s: State, id: Id)
    requires Apart(s) && id in s.http
    ensures Apart(s.(http := s.http - {id})) && s.other + (s.http - {id}) == Tunnels(s) - {id}
  {
  }

  lemma {:induction false} DropKeeps(s: State)
    requires Inv(s) && Drop(s).Some?
    ensures Inv(Drop(s).value)
  {
    var id := s.up[0].id;
    DropLinks(s.add, s.del, s.up, s.down, if id in s.http then UnregisterOK else UnregisterErr);
    if id in s.http {
      DropTables(s, id);
    }
    hide Adds, Dels, AddReplies, DelReplies, Listed, Looped, AddOnLinks, DelOnLinks, FreshOk;
  }

  lemma {:induction false} RemovingDue(m: map<Id, u16>, add: Option<Add>, replies: seq<Option<Id>>, id: Id)
    requires forall r :: Some(r) in replies ==> r != id
    ensures AddSeen(m - {id}, add, replies) == AddSeen(m, add, replies) - {id}
  {
    if add.Some? && |replies| == 1 && replies[0].Some? {
      assert Some(replies[0].value) in replies;
    }
  }

  lemma {:induction false} ReplyLinks(add: Option<Add>, del: Option<Del>, up: seq<Request>, down: seq<Reply>)
    requires AddOnLinks(add, up, down) && DelOnLinks(del, up, down) && down != []
    ensures |AddReply(down[0])| == 1 ==>
              && add.Some? && AddReplies(down) == AddReply(down[0]) && AddReplies(down[1..]) == []
              && DelReplies(down[1..]) == DelReplies(down)
              && AddOnLinks(None, up, down[1..]) && DelOnLinks(del, up, down[1..])
    ensures |DelReply(down[0])| == 1 ==>
              && del.Some? && DelReplies(down) == DelReply(down[0]) && DelReplies(down[1..]) == []
              && AddReplies(down[1..]) == AddReplies(down)
              && AddOnLinks(add, up, down[1..]) && DelOnLinks(None, up, down[1..])
  {
    DownHead(down);
    hide Adds, Dels, AddReplies, DelReplies;
  }

  lemma {:induction false} AddReplyKeeps(s: State)
    requires Inv(s) && TakeReply(s).Some? && (s.down[0].RegisterOK? || s.down[0].RegisterErr?)
    ensures Inv(TakeReply(s).value)
  {
    ReplyLinks(s.add, s.del, s.up, s.down);
    hide Adds, Dels, AddReplies, DelReplies, Listed, AddOnLinks, DelOnLinks;
  }

  lemma {:induction false} DelReplyKeeps(s: State)
    requires Inv(s) && TakeReply(s).Some? && (s.down[0].UnregisterOK? || s.down[0].UnregisterErr?)
    ensures Inv(TakeReply(s).value)
  {
    ReplyLinks(s.add, s.del, s.up, s.down);
    hide Adds, Dels, AddReplies, DelReplies, Listed, AddOnLinks, DelOnLinks, AddSeen;
    RemovingDue(Listed(s.fw), s.add, AddReplies(s.down), s.del.value.id);
  }

  lemma {:induction false} ListSets(fw: seq<Forward>, id: Id, port: u16)
    requires Distinct(fw) && id !in Listed(fw)
    ensures Distinct(fw + [Forward(id, port)]) && Listed(fw + [Forward(id, port)]) == PutPort(Listed(fw), id, port)
  {
    ListedSnoc(fw, Forward(id, port));
    ListedKeysAll(fw, id);
    hide Listed;
    assert Put(Listed(fw), Forward(id, port)) == PutPort(Listed(fw), id, port);
  }

  lemma {:induction false} SetKeeps(s: State)
    requires Inv(s) && s.loop.Setting?
    ensures Inv(ChangeList(s).value)
  {
    hide Adds, Dels, AddReplies, DelReplies, Listed, Removed, AddOnLinks, DelOnLinks, Due;
    ListSets(s.fw, s.loop.id, s.loop.port);
    assert PutPort(Listed(s.fw), s.loop.id, s.loop.port).Keys == Listed(s.fw).Keys + {s.loop.id};
  }

  lemma {:induction false} RemoveKeeps(s: State)
    requires Inv(s) && s.loop.Removing?
    ensures Inv(ChangeList(s).value)
  {
    hide Adds, Dels, AddReplies, DelReplies, Listed, Removed, AddOnLinks, DelOnLinks, Due;
    ListedRemoved(s.fw, s.loop.id);
    assert (Listed(s.fw) - {s.loop.id}).Keys == Listed(s.fw).Keys - {s.loop.id};
  }

  lemma {:induction false} ListKeeps(s: State)
    requires Inv(s) && ChangeList(s).Some?
    ensures Inv(ChangeList(s).value)
  {
    hide Inv;
    if s.loop.Setting? {
      SetKeeps(s);
    } else {
      RemoveKeeps(s);
    }
  }

  lemma {:induction false} ListedKeysAll(fw: seq<Forward>, id: Id)
    requires id !in Listed(fw)
    ensures forall i :: 0 <= i < |fw| ==> fw[i].id != id
  {
    ListedKeys(fw, id);
  }

  lemma {:induction false} StepKeeps(s: State, a: Act)
    requires Inv(s) && Step(false, s, a).Some?
    ensures Inv(Step(false, s, a).value)
  {
    hide Inv, BeginAdd, SendAdd, BeginDel, SendDel, Grant, Refuse, Drop, ChangeList;
    match a
    case AddBegin(port) => AddBeginKeeps(s, port);
    case AddSend(ok) => AddSendKeeps(s, ok);
    case AddTimeout => assert false;
    case DelBegin(id) => DelBeginKeeps(s, id);
    case DelSend(ok) => DelSendKeeps(s, ok);
    case DelTimeout => assert false;
    case ServerGrants(id) => GrantKeeps(s, id);
    case ServerRefuses => RefuseKeeps(s);
    case ServerDrops => DropKeeps(s);
    case ClientReply => ReplyKeeps(s);
    case ClientList => ListKeeps(s);
  }

  lemma {:induction false} ReplyKeeps(s: State)
    requires Inv(s) && TakeReply(s).Some?
    ensures Inv(TakeReply(s).value)
  {
    hide Inv;
    if s.down[0].RegisterOK? || s.down[0].RegisterErr? {
      AddReplyKeeps(s);
    } else {
      DelReplyKeeps(s);
    }
  }

  lemma {:induction false} RunInv(ss: seq<State>, acts: seq<Act>, i: nat)
    requires Run(false, ss, acts) && i < |ss|
    ensures Inv(ss[i])
  {
    hide Inv, Step, Initial;
    if i == 0 {
      InitialInv(ss[0]);
    } else {
      RunInv(ss, acts, i - 1);
      assert Step(false, ss[i - 1], acts[i - 1]) == Some(ss[i - 1 + 1]);
      StepKeeps(ss[i - 1], acts[i - 1]);
    }
  }

  // ---- A late reply resolves another add --------------------------------

  lemma {:induction false} Reaches(timeouts: bool, s: State, a: Act, n: State)
    requires Reachable(timeouts, s) && Step(timeouts, s, a) == Some(n)
    ensures Reachable(timeouts, n)
  {
    hide Step;
    var ss, acts :| Run(timeouts, ss, acts) && ss[|acts|] == s;
    var ss', acts' := ss + [n], acts + [a];
    forall i | 0 <= i < |acts'| ensures Step(timeouts, ss'[i], acts'[i]) == Some(ss'[i + 1]) {
      if i < |acts| {
        assert ss'[i] == ss[i] && ss'[i + 1] == ss[i + 1] && acts'[i] == acts[i];
      }
    }
    assert Run(timeouts, ss', acts') && ss'[|acts'|] == n;
  }

  const EMPTY := State([], None, None, Free, [], [], map[], map[], {}, {})

  lemma {:induction false} FirstAddSent()
    ensures Reachable(true, EMPTY.(add := Some(Add(1, true)), up := [Register(1)]))
  {
    var ss, acts: seq<Act> := [EMPTY], [];
    assert Run(true, ss, acts) && ss[|acts|] == EMPTY;
    assert Reachable(true, EMPTY);
    hide Reachable;
    var s1 := EMPTY.(add := Some(Add(1, false)));
    Reaches(true, EMPTY, AddBegin(1), s1);
    assert [] + [Register(1)] == [Register(1)];
    Reaches(true, s1, AddSend(true), EMPTY.(add := Some(Add(1, true)), up := [Register(1)]));
  }

  /** The add of port 1 times out, port 2 is added, and the reply to the first resolves it. */
  lemma {:induction false} FirstAddTimesOut() returns (s: State)
    ensures Reachable(true, s) && s == EMPTY.(down := [RegisterOK(7)], http := map[7 := 1], ids := {7})
  {
    FirstAddSent();
    hide Reachable;
    var s2 := EMPTY.(add := Some(Add(1, true)), up := [Register(1)]);
    var s3 := EMPTY.(add := Some(Add(1, true)), down := [RegisterOK(7)], http := map[7 := 1], ids := {7});
    assert PutPort(EMPTY.http, 7, 1) == map[7 := 1] && EMPTY.ids + {7} == {7};
    assert EMPTY.down + [RegisterOK(7)] == [RegisterOK(7)] && [Register(1)][1..] == [];
    Reaches(true, s2, ServerGrants(7), s3);
    s := s3.(add := None);
    Reaches(true, s3, AddTimeout, s);
  }

  lemma {:induction false} LateReply() returns (s: State)
    ensures Reachable(true, s) && Quiet(s) && s.fw == [Forward(7, 2)] && 7 in s.http && s.http[7] == 1
  {
    var s0 := FirstAddTimesOut();
    hide Reachable;
    var s1 := s0.(add := Some(Add(2, false)));
    Reaches(true, s0, AddBegin(2), s1);
    var s2 := s0.(add := Some(Add(2, true)), up := [Register(2)]);
    assert [] + [Register(2)] == [Register(2)];
    Reaches(true, s1, AddSend(true), s2);
    var s3 := s2.(add := None, down := [], loop := Setting(7, 2));
    assert [RegisterOK(7)][1..] == [];
    Reaches(true, s2, ClientReply, s3);
    s := s3.(loop := Free, fw := [Forward(7, 2)], known := {7});
    assert [] + [Forward(7, 2)] == [Forward(7, 2)] && s3.known + {7} == {7};
    Reaches(true, s3, ClientList, s);
  }

  /** The two sides agree whenever nothing is outstanding, in every run, if and only if no
      operation can time out. */
  lemma {:induction false} AgreeIff(timeouts: bool)
    ensures (forall s :: Reachable(timeouts, s) && Quiet(s) ==> Agree(s)) <==> !timeouts
  {
    hide Step, Inv;
    if timeouts {
      var s := LateReply();
      ListedAt(s.fw, 0);
      assert Tunnels(s)[7] == 1;
      assert !Agree(s);
    } else {
      forall s | Reachable(timeouts, s) && Quiet(s) ensures Agree(s) {
        var ss, acts :| Run(timeouts, ss, acts) && ss[|acts|] == s;
        RunInv(ss, acts, |acts|);
        QuietAgrees(s);
      }
    }
  }

  // ---- TCP and TLS forwards -----------------------------------------------

  /** handleUnregister knows only the HTTP tunnels, so no step touches the server's others; and
      what the client has listed once it keeps in mind. */
  lemma {:induction false} OthersKept(timeouts: bool, ss: seq<State>, acts: seq<Act>, i: nat)
    requires Run(timeouts, ss, acts) && i < |ss|
    ensures ss[i].other == ss[0].other && ss[0].known <= ss[i].known
  {
    if i == 0 {
    } else {
      OthersKept(timeouts, ss, acts, i - 1);
      assert Step(timeouts, ss[i - 1], acts[i - 1]) == Some(ss[i - 1 + 1]);
    }
    hide Initial;
  }

  /** What is due holds a known ID only if it is listed, with its port. */
  lemma {:induction false} DueKnown(m: map<Id, u16>, loop: Loop, add: Option<Add>, del: Option<Del>, down: seq<Reply>,
                                    known: set<Id>,
                                    ids: set<Id>, id: Id)
    requires FreshOk(m.Keys, known, ids, loop, del, AddReplies(down)) && id in known
    requires id in Due(Looped(m, loop), add, del, down)
    ensures id in m && m[id] == Due(Looped(m, loop), add, del, down)[id]
  {
    var replies := AddReplies(down);
    hide AddReplies, DelReplies;
    assert |replies| == 1 && replies[0].Some? ==> Some(replies[0].value) in replies;
  }

  /** Without timeouts a TCP or TLS forward is never removed on either side: it stays in the
      server's table and in the client's list, with its port, in every state of every run. */
  lemma {:induction false} OthersStay(ss: seq<State>, acts: seq<Act>, i: nat, id: Id)
    requires Run(false, ss, acts) && i < |ss| && id in ss[0].other
    ensures id in ss[i].other && id in Listed(ss[i].fw)
    ensures Listed(ss[i].fw)[id] == ss[i].other[id] == ss[0].other[id]
  {
    OthersKept(false, ss, acts, i);
    RunInv(ss, acts, i);
    var s := ss[i];
    hide Run, AddOnLinks, DelOnLinks, FreshOk, Due, Listed;
    DueKnown(Listed(s.fw), s.loop, s.add, s.del, s.down, s.known, s.ids, id);
  }

  /** Two forwards, one HTTP and one TCP. */
  const TWO := State([Forward(7, 1), Forward(8, 2)], None, None, Free, [], [], map[7 := 1], map[8 := 2], {7, 8}, {7, 8})

  lemma {:induction false} TwoInitial()
    ensures Reachable(true, TWO)
  {
    var fw := TWO.fw;
    assert fw == [] + [Forward(7, 1)] + [Forward(8, 2)];
    ListedSnoc([], Forward(7, 1));
    ListedSnoc([] + [Forward(7, 1)], Forward(8, 2));
    assert Listed(fw) == Tunnels(TWO);
    assert Tunnels(TWO).Keys == {7, 8};
    var ss, acts: seq<Act> := [TWO], [];
    assert Run(true, ss, acts) && ss[|acts|] == TWO;
  }

  /** The removal of the first times out, and its late reply is on the way... */
  lemma {:induction false} FirstRemovalTimesOut() returns (s: State)
    ensures Reachable(true, s) && s == TWO.(down := [UnregisterOK], http := map[])
  {
    TwoInitial();
    hide Reachable, Listed;
    var s1 := TWO.(del := Some(Del(7, false)));
    Reaches(true, TWO, DelBegin(7), s1);
    var s2 := TWO.(del := Some(Del(7, true)), up := [Unregister(7)]);
    assert [] + [Unregister(7)] == [Unregister(7)] && [Unregister(7)][1..] == [];
    Reaches(true, s1, DelSend(true), s2);
    var s3 := TWO.(del := Some(Del(7, true)), down := [UnregisterOK], http := map[]);
    assert TWO.http - {7} == map[] && TWO.down + [UnregisterOK] == [UnregisterOK];
    Reaches(true, s2, ServerDrops, s3);
    s := s3.(del := None);
    Reaches(true, s3, DelTimeout, s);
  }

  /** ... and resolves the removal of the second: the client forgets a forward the server still
      has, and keeps one the server has dropped. */
  lemma {:induction false} LateRemoval() returns (s: State)
    ensures Reachable(true, s) && Quiet(s) && s.fw == [Forward(7, 1)] && s.other == map[8 := 2] && s.http == map[]
  {
    var s0 := FirstRemovalTimesOut();
    hide Reachable;
    var s1 := s0.(del := Some(Del(8, false)));
    Reaches(true, s0, DelBegin(8), s1);
    var s2 := s0.(del := Some(Del(8, true)), up := [Unregister(8)]);
    assert [] + [Unregister(8)] == [Unregister(8)] && [UnregisterOK][1..] == [];
    Reaches(true, s1, DelSend(true), s2);
    var s3 := s2.(del := None, down := [], loop := Removing(8));
    Reaches(true, s2, ClientReply, s3);
    RemovedIs(s3.fw, 8);
    assert Find(s3.fw, 8) == Some(1);
    assert s3.fw[..1] + s3.fw[2..] == [Forward(7, 1)];
    s := s3.(loop := Free, fw := [Forward(7, 1)]);
    Reaches(true, s3, ClientList, s);
  }
}
