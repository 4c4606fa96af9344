/**
 The client address behind trusted proxies: the N-th entry from the right of all
 X-Forwarded-For lines, or the direct peer.
 */
module ClientIp {
  import opened Text

  /** unicode.IsSpace. */
  predicate Space(c: char) {
    || ('\t' <= c <= '\r') || c == ' ' || c == '\U{85}' || c == '\U{A0}' || c == '\U{1680}'
    || ('\U{2000}' <= c <= '\U{200A}') || c == '\U{2028}' || c == '\U{2029}'
    || c == '\U{202F}' || c == '\U{205F}' || c == '\U{3000}'
  }

  function TrimLeft(s: string): string { if s != [] && Space(s[0]) then TrimLeft(s[1..]) else s }

  function TrimRight(s: string): string { if s != [] && Space(s[|s| - 1]) then TrimRight(s[..|s| - 1]) else s }

  function Trim(s: string): string { TrimRight(TrimLeft(s)) }

  function Kept(parts: seq<string>): seq<string> {
    if parts == [] then []
    else (if Trim(parts[0]) != "" then [Trim(parts[0])] else []) + Kept(parts[1..])
  }

  /** The entries of one header line. */
  function Line(h: string): seq<string> { Kept(Split(h, ',')) }

  /** The entries of all lines, in order. */
  function Entries(lines: seq<string>): seq<string> {
    if lines == [] then [] else Line(lines[0]) + Entries(lines[1..])
  }

  /** What clientIP answers: `peer` is the host of the connection itself. */
  function Resolve(lines: seq<string>, hops: int, peer: string): string {
    var xff := Entries(lines);
    if hops <= 0 || |xff| < hops then peer else xff[|xff| - hops]
  }

  /** The inner loop: the entries of one line, appended. */
  method AppendLine(before: seq<string>, h: string) returns (xff: seq<string>)
    ensures xff == before + Line(h)
  {
    var parts := Split(h, ',');
    xff := before;
    NoEntries();
    hide Kept, Trim, Split;
    for j := 0 to |parts|
      invariant xff == before + Kept(parts[..j])
    {
      var part := Trim(parts[j]);
      KeptSnoc(parts[..j], parts[j]);
      assert parts[..j + 1] == parts[..j] + [parts[j]];
      if part != "" {
        xff := xff + [part];
      }
    }
    assert parts[..|parts|] == parts;
  }

  method ClientIP(lines: seq<string>, hops: int, peer: string) returns (r: string)
    ensures r == Resolve(lines, hops, peer)
  {
    if hops <= 0 {
      return peer;
    }
    var xff: seq<string> := [];
    NoEntries();
    hide Line, Entries;
    for i := 0 to |lines|
      invariant xff == Entries(lines[..i])
    {
      xff := AppendLine(xff, lines[i]);
      EntriesSnoc(lines[..i], lines[i]);
      assert lines[..i + 1] == lines[..i] + [lines[i]];
    }
    assert lines[..|lines|] == lines;
    var idx := |xff| - hops;
    if idx < 0 || idx >= |xff| {
      return peer;
    }
    return xff[idx];
  }

  lemma {:induction false} NoEntries()
    ensures Kept([]) == [] && Entries([]) == []
  {
  }

  lemma {:induction false} KeptSnoc(a: seq<string>, part: string)
    ensures Kept(a + [part]) == if Trim(part) != "" then Kept(a) + [Trim(part)] else Kept(a)
  {
    KeptAppend(a, [part]);
    assert Kept([part]) == if Trim(part) != "" then [Trim(part)] + Kept([]) else [] + Kept([]);
  }

  lemma {:induction false} EntriesSnoc(a: seq<string>, h: string)
    ensures Entries(a + [h]) == Entries(a) + Line(h)
  {
    EntriesAppend(a, [h]);
    assert Entries([h]) == Line(h) + Entries([]);
  }

  // ---- How lines are read -----------------------------------------------

  /** One field of a line: an entry, or none, with the space written around it. */
  datatype Field = Field(left: string, text: string, right: string) {
    function Written(): string { left + text + right }
  }

  const ASCII_SPACES := "\t\n\U{B}\U{C}\r "
  const WIDE_SPACES := "\U{2000}\U{2001}\U{2002}\U{2003}\U{2004}\U{2005}\U{2006}\U{2007}\U{2008}\U{2009}\U{200A}"
  const OTHER_SPACES := "\U{85}\U{A0}\U{1680}\U{2028}\U{2029}\U{202F}\U{205F}\U{3000}"

  /** The characters with Unicode's property White_Space. */
  predicate WhiteSpace(c: char) { c in ASCII_SPACES || c in WIDE_SPACES || c in OTHER_SPACES }

  predicate AllSpace(s: string) { forall i :: 0 <= i < |s| ==> WhiteSpace(s[i]) }

  predicate FieldOk(f: Field) {
    && AllSpace(f.left) && AllSpace(f.right) && ',' !in f.text
    && (f.text != "" ==> !WhiteSpace(f.text[0]) && !WhiteSpace(f.text[|f.text| - 1]))
  }

  lemma {:induction false} SpaceIff(c: char)
    ensures Space(c) <==> WhiteSpace(c)
    ensures !WhiteSpace(',')
  {
    assert forall i :: 0 <= i < 5 ==> ASCII_SPACES[i] as int == 9 + i;
    assert '\t' <= c <= '\r' ==> ASCII_SPACES[c as int - 9] == c;
    assert ' ' == ASCII_SPACES[5];
    assert forall i :: 0 <= i < 11 ==> WIDE_SPACES[i] as int == 0x2000 + i;
    assert '\U{2000}' <= c <= '\U{200A}' ==> WIDE_SPACES[c as int - 0x2000] == c;
  }

  lemma {:induction false} TrimLeftIs(l: string, t: string)
    requires AllSpace(l) && (t != "" ==> !WhiteSpace(t[0]))
    ensures TrimLeft(l + t) == t
  {
    hide WhiteSpace, Space;
    if l == "" {
      assert l + t == t;
      if t != "" {
        SpaceIff(t[0]);
      }
    } else {
      SpaceIff(l[0]);
      assert (l + t)[1..] == l[1..] + t;
      TrimLeftIs(l[1..], t);
    }
  }

  lemma {:induction false} TrimRightIs(t: string, r: string)
    requires AllSpace(r) && (t != "" ==> !WhiteSpace(t[|t| - 1]))
    ensures TrimRight(t + r) == t
  {
    hide WhiteSpace, Space;
    if r == "" {
      assert t + r == t;
      if t != "" {
        SpaceIff(t[|t| - 1]);
      }
    } else {
      SpaceIff(r[|r| - 1]);
      assert (t + r)[..|t + r| - 1] == t + r[..|r| - 1];
      TrimRightIs(t, r[..|r| - 1]);
    }
  }

  lemma {:induction false} FieldTrimmed(f: Field)
    requires FieldOk(f)
    ensures Trim(f.Written()) == f.text && ',' !in f.Written()
  {
    SpaceIff(',');
    hide WhiteSpace, Space;
    assert ',' !in f.left && ',' !in f.right;
    if f.text == "" {
      assert f.Written() == (f.left + f.right) + "";
      TrimLeftIs(f.left + f.right, "");
      assert TrimRight("") == "";
    } else {
      assert f.Written() == f.left + (f.text + f.right);
      TrimLeftIs(f.left, f.text + f.right);
      TrimRightIs(f.text, f.right);
    }
  }

  /** A line with these fields. */
  function Written(fs: seq<Field>): string
    requires fs != []
  {
    if |fs| == 1 then fs[0].Written() else fs[0].Written() + "," + Written(fs[1..])
  }

  function Texts(fs: seq<Field>): seq<string> {
    if fs == [] then [] else (if fs[0].text == "" then [] else [fs[0].text]) + Texts(fs[1..])
  }

  /** The entries of a line are its fields, in order, without the space around them and without
      those that are nothing but space. */
  lemma {:induction false} LineIs(fs: seq<Field>)
    requires fs != [] && forall i :: 0 <= i < |fs| ==> FieldOk(fs[i])
    ensures Line(Written(fs)) == Texts(fs)
  {
    hide FieldOk, Trim;
    var first := fs[0].Written();
    FieldTrimmed(fs[0]);
    if |fs| == 1 {
      assert Split(first, ',') == [first] && [first][1..] == [] && fs[1..] == [];
      NoEntries();
      assert Kept([first]) == if fs[0].text != "" then [fs[0].text] else [];
    } else {
      LineIs(fs[1..]);
      SplitFirst(first, Written(fs[1..]), ',');
      assert Split(Written(fs), ',')[1..] == Split(Written(fs[1..]), ',');
    }
  }


  /** Each of N trusted proxies appends the address it saw to what came before it. Then the answer is
      the address that the outermost of them saw, whatever it was sent. */
  lemma {:induction false} OutermostIsTaken(pre: seq<string>, h: string, fs: seq<Field>, hops: int, peer: string)
    requires fs != [] && (forall i :: 0 <= i < |fs| ==> FieldOk(fs[i])) && |Texts(fs)| == hops > 0
    ensures Resolve(pre + [h + "," + Written(fs)], hops, peer) == Texts(fs)[0]
    ensures Resolve(pre + [h] + [Written(fs)], hops, peer) == Texts(fs)[0]
  {
    var line := Written(fs);
    LineIs(fs);
    NoEntries();
    EntriesSnoc([], line);
    assert [] + [line] == [line];
    assert Entries([line]) == Texts(fs);
    EntriesSnoc(pre + [h], line);
    EntriesSnoc(pre, h + "," + line);
    SplitPrepend(h, line, ',');
    KeptAppend(Split(h, ','), Split(line, ','));
    hide Entries, Written, Kept;
  }

  // ---- What a client can and cannot influence ---------------------------

  lemma {:induction false} KeptAppend(a: seq<string>, b: seq<string>)
    ensures Kept(a + b) == Kept(a) + Kept(b)
  {
    if a == [] {
      assert a + b == b;
    } else {
      assert (a + b)[1..] == a[1..] + b;
      KeptAppend(a[1..], b);
    }
  }

  lemma {:induction false} EntriesAppend(a: seq<string>, b: seq<string>)
    ensures Entries(a + b) == Entries(a) + Entries(b)
  {
    if a == [] {
      assert a + b == b;
    } else {
      assert (a + b)[1..] == a[1..] + b;
      EntriesAppend(a[1..], b);
      assert Line(a[0]) + (Entries(a[1..]) + Entries(b)) == Line(a[0]) + Entries(a[1..]) + Entries(b);
    }
  }

  /** Entries put in front of the first line, separated by a comma, come first. */
  lemma {:induction false} PrependEntries(p: string, h: string, rest: seq<string>)
    ensures Entries([p + "," + h] + rest) == Line(p) + Entries([h] + rest)
  {
    SplitPrepend(p, h, ',');
    KeptAppend(Split(p, ','), Split(h, ','));
    assert ([p + "," + h] + rest)[1..] == rest && ([h] + rest)[1..] == rest;
    assert Line(p) + (Line(h) + Entries(rest)) == Line(p) + Line(h) + Entries(rest);
  }

  /** With enough entries only the last N matter: whatever a client sends in front, as lines
      or inside the first line, changes nothing. */
  lemma {:induction false} OnlyLastMatter(pre: seq<string>, p: string, h: string, rest: seq<string>, hops: int,
                                          peer: string)
    requires hops <= 0 || |Entries([h] + rest)| >= hops
    ensures Resolve(pre + ([h] + rest), hops, peer) == Resolve([h] + rest, hops, peer)
    ensures Resolve([p + "," + h] + rest, hops, peer) == Resolve([h] + rest, hops, peer)
  {
    EntriesAppend(pre, [h] + rest);
    PrependEntries(p, h, rest);
    hide Entries, Line;
    FromTheRight(Entries(pre), Entries([h] + rest), hops);
    FromTheRight(Line(p), Entries([h] + rest), hops);
  }

  lemma {:induction false} FromTheRight(a: seq<string>, b: seq<string>, hops: int)
    ensures 0 < hops <= |b| ==> |a + b| >= hops && (a + b)[|a + b| - hops] == b[|b| - hops]
  {
  }

  lemma {:induction false} OneEntry(c: char)
    requires !Space(c) && c != ','
    ensures Line([c]) == [[c]]
  {
    assert Split([c], ',') == [[c]];
    assert TrimLeft([c]) == [c] && TrimRight([c]) == [c];
    assert Kept([[c]]) == [[c]] + Kept([]);
  }

  function Copies(c: char, n: nat): seq<string> { if n == 0 then [] else [[c]] + Copies(c, n - 1) }

  lemma {:induction false} CopiesEntries(c: char, n: nat)
    requires !Space(c) && c != ','
    ensures Entries(Copies(c, n)) == Copies(c, n) && |Copies(c, n)| == n
    ensures n > 0 ==> Copies(c, n)[0] == [c]
  {
    if n == 0 {
    } else {
      OneEntry(c);
      CopiesEntries(c, n - 1);
      assert Copies(c, n)[1..] == Copies(c, n - 1);
    }
  }

  lemma {:induction false} EnoughIsFirm(pre: seq<string>, lines: seq<string>, hops: int, peer: string)
    requires hops <= 0 || |Entries(lines)| >= hops
    ensures Resolve(pre + lines, hops, peer) == Resolve(lines, hops, peer)
  {
    EntriesAppend(pre, lines);
    hide Entries;
    FromTheRight(Entries(pre), Entries(lines), hops);
  }

  lemma {:induction false} TooFewIsNot(lines: seq<string>, hops: int, peer: string) returns (pre: seq<string>)
    requires |Entries(lines)| < hops
    ensures Resolve(pre + lines, hops, peer) != Resolve(lines, hops, peer)
  {
    var c := if peer == "a" then 'b' else 'a';
    var n := hops - |Entries(lines)|;
    pre := Copies(c, n);
    CopiesEntries(c, n);
    EntriesAppend(pre, lines);
    hide Entries, Copies, Space;
    assert Entries(pre + lines)[0] == [c];
    assert [c] != peer;
  }

  /** The answer is beyond a client's influence if and only if no hop is trusted or the
      proxies supplied all their entries. */
  lemma {:induction false} BeyondInfluenceIff(lines: seq<string>, hops: int, peer: string)
    ensures (forall pre :: Resolve(pre + lines, hops, peer) == Resolve(lines, hops, peer))
       <==> hops <= 0 || |Entries(lines)| >= hops
  {
    hide Resolve, Entries;
    if hops <= 0 || |Entries(lines)| >= hops {
      forall pre ensures Resolve(pre + lines, hops, peer) == Resolve(lines, hops, peer) {
        EnoughIsFirm(pre, lines, hops, peer);
      }
    } else {
      var pre := TooFewIsNot(lines, hops, peer);
    }
  }
}
