/**
 Bookkeeping with two sides: a shared table that names an owner for every key, and what
 each owner believes it holds. `Balanced` says the two sides agree exactly.
 */
module Book {
  /** Slot `slot` of owner `owner`. */
  datatype Entry<+S, +O> = Entry(slot: S, owner: O)

  ghost predicate Balanced<K(!new), S(!new), O(!new)>(book: map<K, Entry<S, O>>, held: map<O, map<S, K>>) {
    && (forall o, s {:trigger s in held[o]} :: o in held && s in held[o] ==>
          held[o][s] in book && book[held[o][s]] == Entry(s, o))
    && (forall k {:trigger book[k]} {:trigger k in book} :: k in book ==>
          book[k].owner in held && book[k].slot in held[book[k].owner] && held[book[k].owner][book[k].slot] == k)
  }

  /** An entry exists if and only if its owner holds it, and no key has two holders. */
  lemma {:induction false} BalancedIff<K(!new), S(!new), O(!new)>(book: map<K, Entry<S, O>>, held: map<O, map<S, K>>,
                                         k: K, s: S, o: O)
    requires Balanced(book, held)
    ensures (k in book && book[k] == Entry(s, o)) <==> (o in held && s in held[o] && held[o][s] == k)
    ensures k in book <==> exists s', o' :: o' in held && s' in held[o'] && held[o'][s'] == k
  {
    if k in book {
      assert book[k].owner in held && book[k].slot in held[book[k].owner];
    }
  }

  lemma {:induction false} Adds<K(!new), S(!new), O(!new)>(book: map<K, Entry<S, O>>, held: map<O, map<S, K>>, o: O,
                                  s: S, k: K)
    requires Balanced(book, held) && o in held && s !in held[o] && k !in book
    ensures Balanced(book[k := Entry(s, o)], held[o := held[o][s := k]])
  {
  }

  lemma {:induction false} Drops<K(!new), S(!new), O(!new)>(book: map<K, Entry<S, O>>, held: map<O, map<S, K>>, o: O,
                                   s: S)
    requires Balanced(book, held) && o in held && s in held[o]
    ensures Balanced(book - {held[o][s]}, held[o := held[o] - {s}])
  {
    var k := held[o][s];
    var b, h := book - {k}, held[o := held[o] - {s}];
    forall o', s' | o' in h && s' in h[o'] ensures h[o'][s'] in b && b[h[o'][s']] == Entry(s', o') {
      assert s' in held[o'];
    }
    forall k' | k' in b ensures b[k'].owner in h && b[k'].slot in h[b[k'].owner] && h[b[k'].owner][b[k'].slot] == k' {
      assert k' in book;
    }
  }

  /** The owner keeps the key under another slot. */
  lemma {:induction false} Moves<K(!new), S(!new), O(!new)>(book: map<K, Entry<S, O>>, held: map<O, map<S, K>>, o: O,
                                   s: S, t: S)
    requires Balanced(book, held) && o in held && s in held[o] && t !in held[o]
    ensures Balanced(book[held[o][s] := Entry(t, o)], held[o := (held[o] - {s})[t := held[o][s]]])
  {
    var k := held[o][s];
    Drops(book, held, o, s);
    var b, h := book - {k}, held[o := held[o] - {s}];
    Adds(b, h, o, t, k);
    assert b[k := Entry(t, o)] == book[k := Entry(t, o)];
    assert h[o := h[o][t := k]] == held[o := (held[o] - {s})[t := k]];
  }

  lemma {:induction false} Joins<K(!new), S(!new), O(!new)>(book: map<K, Entry<S, O>>, held: map<O, map<S, K>>, o: O)
    requires Balanced(book, held) && o !in held
    ensures Balanced(book, held[o := map[]])
  {
  }

  /** An owner that holds nothing has no entry. */
  lemma {:induction false} NothingHeld<K(!new), S(!new), O(!new)>(book: map<K, Entry<S, O>>, held: map<O, map<S, K>>,
                                         o: O)
    requires Balanced(book, held) && (o in held ==> held[o] == map[])
    ensures forall k :: k in book ==> book[k].owner != o
  {
  }
}
