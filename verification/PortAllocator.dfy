/**
 Public TCP ports: a fixed range, the ports in use, and a cursor that cycles through the
 range so that a released port is not handed out again at once.
 */
module PortAllocator {
  import opened Basics

  /** The allocator's state as a value. */
  datatype Pool = Pool(start: u16, end: u16, used: set<u16>, next: u16) {
    predicate InRange(p: u16) { start <= p <= end }

    function Total(): int { end - start + 1 }

    ghost predicate Valid() {
      && (start <= end ==> InRange(next))
      && (forall p :: p in used ==> InRange(p))
    }

    /** The i-th port the cursor meets, for one lap and back to the first. */
    function Ahead(i: nat): (p: u16)
      requires start <= end && InRange(next) && i <= Total()
      ensures InRange(p)
    {
      if next + i <= end then next + i else next + i - Total()
    }

    /** How far the cursor travels to the first free port, from distance i on. */
    function FirstFree(i: nat): (r: Option<nat>)
      requires start <= end && InRange(next) && i <= Total()
      ensures r.Some? ==> i <= r.value < Total() && Ahead(r.value) !in used
      ensures forall j :: i <= j < (if r.Some? then r.value else Total()) ==> Ahead(j) in used
      decreases Total() - i
    {
      if i == Total() then None
      else if Ahead(i) !in used then Some(i)
      else FirstFree(i + 1)
    }

    /** What Allocate answers and leaves behind. */
    function Allocate(preferred: u16): (r: (Option<u16>, Pool))
      requires start <= end ==> InRange(next)
      ensures Valid() ==> r.1.Valid() && r.1.start == start && r.1.end == end
    {
      if preferred != 0 then
        if !InRange(preferred) || preferred in used then (None, this)
        else (Some(preferred), this.(used := used + {preferred}))
      else if start > end || FirstFree(0).None? then (None, this)
      else
        var i := FirstFree(0).value;
        (Some(Ahead(i)), this.(used := used + {Ahead(i)}, next := Ahead(i + 1)))
    }

    function Release(port: u16): Pool { this.(used := used - {port}) }
  }

  lemma {:induction false} AheadCovers(pool: Pool, p: u16) returns (i: nat)
    requires pool.start <= pool.end && pool.InRange(pool.next) && pool.InRange(p)
    ensures i < pool.Total() && pool.Ahead(i) == p
  {
    i := if p >= pool.next then p - pool.next else p - pool.next + pool.Total();
  }

  /** An automatic request succeeds exactly when some port is free, and the port it gets is
      the first free one the cursor meets; when every port is taken nothing changes. */
  lemma {:induction false} AutomaticGrant(pool: Pool)
    requires pool.Valid()
    ensures var (r, after) := pool.Allocate(0);
            && (r.Some? <==> exists p: u16 :: pool.InRange(p) && p !in pool.used)
            && (r.None? ==> after == pool)
            && (r.Some? ==>
                  && pool.InRange(r.value) && r.value !in pool.used
                  && after.used == pool.used + {r.value}
                  && (after.next == if r.value == pool.end then pool.start else r.value + 1)
                  && exists i: nat ::
                       && i < pool.Total() && r.value == pool.Ahead(i)
                       && forall j :: 0 <= j < i ==> pool.Ahead(j) in pool.used)
  {
    if p: u16 :| pool.InRange(p) && p !in pool.used {
      var i := AheadCovers(pool, p);
    }
  }

  /** A request for one port succeeds exactly when it is in range and free, and does not
      move the cursor. */
  lemma {:induction false} PreferredGrant(pool: Pool, preferred: u16)
    requires pool.Valid() && preferred != 0
    ensures var (r, after) := pool.Allocate(preferred);
            && (r.Some? <==> pool.InRange(preferred) && preferred !in pool.used)
            && (r.Some? ==> r.value == preferred && after.used == pool.used + {preferred})
            && (r.None? ==> after == pool)
            && after.next == pool.next
  {
  }

  class PortAllocator {
    const start: u16
    const end: u16
    var used: set<u16>
    var next: u16

    function State(): Pool
      reads this
    {
      Pool(start, end, used, next)
    }

    constructor (start: u16, end: u16)
      ensures State() == Pool(start, end, {}, start) && State().Valid()
    {
      this.start, this.end := start, end;
      used, next := {}, start;
    }

    method Allocate(preferred: u16) returns (r: Option<u16>)
      requires State().Valid()
      modifies this
      ensures State().Valid()
      ensures (r, State()) == old(State()).Allocate(preferred)
    {
      ghost var before := State();
      if preferred != 0 {
        if preferred < start || preferred > end {
          return None;
        }
        if preferred in used {
          return None;
        }
        used := used + {preferred};
        return Some(preferred);
      }
      var total := end - start + 1;
      var i := 0;
      while i < total
        invariant 0 <= i && (start <= end ==> i <= total)
        invariant used == before.used
        invariant start <= end ==> next == before.Ahead(i) && before.FirstFree(0) == before.FirstFree(i)
        invariant start > end ==> State() == before
      {
        var p := next;
        if next == end {
          next := start;
        } else {
          next := next + 1;
        }
        assert next == before.Ahead(i + 1);
        if p !in used {
          used := used + {p};
          return Some(p);
        }
        i := i + 1;
      }
      assert State() == before;
      return None;
    }

    method Release(port: u16)
      requires State().Valid()
      modifies this
      ensures State() == old(State()).Release(port) && State().Valid()
    {
      used := used - {port};
    }
  }

  // ---- Fairness of the cursor over any run ------------------------------

  datatype Op = Request(preferred: u16) | Return(port: u16)

  function Do(pool: Pool, op: Op): Pool
    requires pool.start <= pool.end ==> pool.InRange(pool.next)
  {
    match op
    case Request(p) => pool.Allocate(p).1
    case Return(p) => pool.Release(p)
  }

  /** Ports the cursor passes while serving one operation. */
  function Travel(pool: Pool, op: Op): nat
    requires pool.start <= pool.end && pool.InRange(pool.next)
  {
    if op != Request(0) then 0
    else if pool.FirstFree(0).None? then pool.Total()
    else pool.FirstFree(0).value + 1
  }

  ghost function DoAll(pool: Pool, ops: seq<Op>): (after: Pool)
    requires pool.Valid()
    ensures after.Valid() && after.start == pool.start && after.end == pool.end
    decreases |ops|
  {
    if ops == [] then pool else
    DoAll(Do(pool, ops[0]), ops[1..])
  }

  ghost function TravelAll(pool: Pool, ops: seq<Op>): nat
    requires pool.Valid() && pool.start <= pool.end
    decreases |ops|
  {
    if ops == [] then 0 else
    Travel(pool, ops[0]) + TravelAll(Do(pool, ops[0]), ops[1..])
  }

  lemma {:induction false} OneOperation(pool: Pool, op: Op) returns (lap: nat)
    requires pool.Valid() && pool.start <= pool.end
    ensures Do(pool, op).next + lap * pool.Total() == pool.next + Travel(pool, op)
  {
    lap := if Do(pool, op).next == pool.next + Travel(pool, op) then 0 else 1;
  }

  lemma {:induction false} Distribute(a: nat, b: nat, t: int)
    ensures (a + b) * t == a * t + b * t
  {
  }

  /** The cursor's position is where it started plus what it travelled, up to whole laps. */
  lemma {:induction false} CursorPosition(pool: Pool, ops: seq<Op>) returns (laps: nat)
    requires pool.Valid() && pool.start <= pool.end
    ensures DoAll(pool, ops).next + laps * pool.Total() == pool.next + TravelAll(pool, ops)
    decreases |ops|
  {
    if ops == [] {
      laps := 0;
    } else {
      var lap := OneOperation(pool, ops[0]);
      var more := CursorPosition(Do(pool, ops[0]), ops[1..]);
      laps := lap + more;
      Distribute(lap, more, pool.Total());
    }
  }

  lemma {:induction false} PositiveMultiple(k: int, t: nat)
    requires k * t > 0
    ensures k * t >= t
  {
  }

  /** Whatever is requested and returned in between, a port that is granted automatically
      twice was granted a full lap of the cursor apart: every other port of the range has
      been looked at in the meantime. */
  lemma {:induction false} FullLapBetweenGrants(pool: Pool, ops: seq<Op>, p: u16)
    requires pool.Valid() && pool.start <= pool.end
    requires pool.Allocate(0).0 == Some(p)
    requires DoAll(pool.Allocate(0).1, ops).Allocate(0).0 == Some(p)
    ensures var first := pool.Allocate(0).1;
            TravelAll(first, ops) + Travel(DoAll(first, ops), Request(0)) >= pool.Total()
  {
    var first := pool.Allocate(0).1;
    var again := DoAll(first, ops);
    var t := pool.Total();
    var laps := CursorPosition(first, ops);
    var i := again.FirstFree(0).value;
    var w1 := if p == pool.end then 1 else 0;
    var w2 := if p == again.next + i then 0 else 1;
    assert first.next == p + 1 - w1 * t;
    assert again.next + i == p + w2 * t;
    assert TravelAll(first, ops) + i + 1 == (laps + w1 + w2) * t by {
      Distribute(laps + w1, w2, t);
      Distribute(laps, w1, t);
    }
    PositiveMultiple(laps + w1 + w2, t);
  }
}
