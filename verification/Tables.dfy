/**
 The client's three tables as the sets of request IDs they hold, and what the frame loop and
 the goroutines do to them. The loop does not know what an ID is for: it looks it up in the
 relays, then in the body streams, then in the response cancels.
 */
module Tables {
  type Id = nat

  datatype Change = Keep | AddRelay | DropRelay | AddBody | DropBody | AddCancel | DropCancel | CloseFrame

  datatype Tables = Tables(relays: set<Id>, bodies: set<Id>, cancels: set<Id>) {
    /** What one step does to the entries of one ID. */
    function Apply(id: Id, c: Change): Tables {
      match c
      case Keep => this
      case AddRelay => this.(relays := relays + {id})
      case DropRelay => this.(relays := relays - {id})
      case AddBody => this.(bodies := bodies + {id})
      case DropBody => this.(bodies := bodies - {id})
      case AddCancel => this.(cancels := cancels + {id})
      case DropCancel => this.(cancels := cancels - {id})
      case CloseFrame => Close(id)
    }

    /** handleStreamClose. */
    function Close(id: Id): Tables {
      if id in relays then this.(relays := relays - {id})
      else if id in bodies then this.(bodies := bodies - {id})
      else if id in cancels then this.(cancels := cancels - {id})
      else this
    }
  }

  /** How many entries of the first are missing from the second. */
  function Gone(t: Tables, n: Tables): nat {
    |t.relays - n.relays| + |t.bodies - n.bodies| + |t.cancels - n.cancels|
  }

  /** A close frame adds no entry, and takes at most one of all three tables: none if and only
      if its ID is in none. */
  lemma {:induction false} CloseTakesOne(t: Tables, id: Id)
    ensures var n := t.Close(id);
            && n.relays <= t.relays && n.bodies <= t.bodies && n.cancels <= t.cancels
            && Gone(t, n) == if id in t.relays + t.bodies + t.cancels then 1 else 0
  {
    var n := t.Close(id);
    assert t.relays - n.relays == if id in t.relays then {id} else {};
    assert t.bodies - n.bodies == if id !in t.relays && id in t.bodies then {id} else {};
    assert t.cancels - n.cancels == if id !in t.relays && id !in t.bodies && id in t.cancels then {id} else {};
  }

  lemma {:induction false} OthersUntouched(t: Tables, id: Id, c: Change, j: Id)
    requires j != id
    ensures var n := t.Apply(id, c);
            && (j in n.relays <==> j in t.relays) && (j in n.bodies <==> j in t.bodies)
            && (j in n.cancels <==> j in t.cancels)
  {
  }

  const NO_TABLES := Tables({}, {}, {})
}
