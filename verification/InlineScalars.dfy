/** Scalars and inline lists, the values behind the colon of a configuration line. */
module InlineScalars {
  import opened Numbers
  import opened MiniYaml

  /** `N` stands for Python's numbers; `cast` tries `int` and then `float`. */
  datatype Item<N> = List(items: seq<Item<N>>) | Truth(value: bool) | Number(number: N) | Word(text: string)

  function LowerChar(c: char): char { if 'A' <= c <= 'Z' then (c as int + 32) as char else c }

  function Lower(s: string): string { if s == [] then [] else [LowerChar(s[0])] + Lower(s[1..]) }

  function TrimLeft(s: string, c: char): string { if s != [] && s[0] == c then TrimLeft(s[1..], c) else s }

  function TrimRight(s: string, c: char): string {
    if s != [] && s[|s| - 1] == c then TrimRight(s[..|s| - 1], c) else s
  }

  function Unquoted(s: string): string {
    var t := TrimRight(TrimLeft(s, '"'), '"');
    TrimRight(TrimLeft(t, '\''), '\'')
  }

  function Commas(s: string): nat { if s == [] then 0 else Commas(s[1..]) + if s[0] == ',' then 1 else 0 }

  /** `s.split(",")`. */
  function Split(s: string): (pieces: seq<string>)
    ensures |pieces| == Commas(s) + 1
    ensures forall i | 0 <= i < |pieces| :: |pieces[i]| <= |s|
    decreases |s|
  {
    if s == [] then [[]]
    else
      var rest := Split(s[1..]);
      if s[0] == ',' then [[]] + rest else [[s[0]] + rest[0]] + rest[1..]
  }

  predicate Bracketed(v: string) { |v| >= 2 && v[0] == '[' && v[|v| - 1] == ']' }

  function Inner(v: string): string
    requires Bracketed(v)
  {
    Strip(v[1..|v| - 1])
  }

  lemma {:induction false} RStripIsPrefix(s: string)
    ensures |RStrip(s)| <= |s|
  {
    if s != [] && IsSpace(s[|s| - 1]) { RStripIsPrefix(s[..|s| - 1]); }
  }

  lemma StripShrinks(s: string)
    ensures |Strip(s)| <= |s|
  {
    LStripIsSuffix(s);
    RStripIsPrefix(LStrip(s));
  }

  function ParseScalar<N>(cast: string -> Option<N>, v: string): Item<N>
    decreases |v|
  {
    if Bracketed(v) then
      StripShrinks(v[1..|v| - 1]);
      if Inner(v) == [] then List([])
      else
        var pieces := Split(Inner(v));
        List(seq(|pieces|, i requires 0 <= i < |pieces| =>
          StripShrinks(pieces[i]);
          ParseScalar(cast, Strip(pieces[i]))))
    else if Lower(v) == "true" || Lower(v) == "false" then Truth(Lower(v) == "true")
    else if cast(v).Some? then Number(cast(v).value)
    else Word(Unquoted(v))
  }

  // Printed lists.

  /** An element of a printed list with the white space before and after it. */
  datatype Piece = Piece(before: string, text: string, after: string)

  function Printed(p: Piece): string { p.before + p.text + p.after }

  function Join(ps: seq<Piece>): string
    requires ps != []
  {
    if |ps| == 1 then Printed(ps[0]) else Printed(ps[0]) + "," + Join(ps[1..])
  }

  predicate PieceOk(p: Piece) { Blank(p.before) && Blank(p.after) && Trimmed(p.text) }

  /** A printed list; the outermost white space belongs to the brackets. */
  predicate ListOk(ps: seq<Piece>) {
    && ps != [] && (forall i | 0 <= i < |ps| :: PieceOk(ps[i]))
    && ps[0].before == [] && ps[|ps| - 1].after == []
  }

  function TextCommas(ps: seq<Piece>): nat { if ps == [] then 0 else Commas(ps[0].text) + TextCommas(ps[1..]) }

  lemma {:induction false} CommasOfSum(a: string, b: string)
    ensures Commas(a + b) == Commas(a) + Commas(b)
  {
    if a == [] {
      assert a + b == b;
    } else {
      assert (a + b)[1..] == a[1..] + b;
      CommasOfSum(a[1..], b);
    }
  }

  lemma {:induction false} NoCommas(s: string)
    ensures Commas(s) == 0 <==> ',' !in s
  {
    if s != [] { NoCommas(s[1..]); }
  }

  lemma CommasOfPiece(p: Piece)
    requires PieceOk(p)
    ensures Commas(Printed(p)) == Commas(p.text)
  {
    CommasOfSum(p.before + p.text, p.after);
    CommasOfSum(p.before, p.text);
    NoCommas(p.before);
    NoCommas(p.after);
  }

  lemma {:induction false} CommasOfJoin(ps: seq<Piece>)
    requires ps != [] && forall i | 0 <= i < |ps| :: PieceOk(ps[i])
    ensures Commas(Join(ps)) == |ps| - 1 + TextCommas(ps)
  {
    hide Printed, PieceOk;
    CommasOfPiece(ps[0]);
    if |ps| > 1 {
      CommasOfJoin(ps[1..]);
      CommasOfSum(Printed(ps[0]) + ",", Join(ps[1..]));
      CommasOfSum(Printed(ps[0]), ",");
      assert Commas(",") == 1;
    } else {
      assert ps[1..] == [];
    }
  }

  lemma {:induction false} NoTextCommas(ps: seq<Piece>)
    ensures TextCommas(ps) == 0 <==> forall i | 0 <= i < |ps| :: ',' !in ps[i].text
  {
    if ps != [] {
      NoTextCommas(ps[1..]);
      NoCommas(ps[0].text);
      assert forall i | 1 <= i < |ps| :: ps[i] == ps[1..][i - 1];
    }
  }

  lemma {:induction false} SplitFirst(a: string, b: string)
    requires ',' !in a
    ensures Split(a + "," + b) == [a] + Split(b)
    ensures Split(a) == [a]
  {
    if a == [] {
      assert a + "," + b == "," + b && ("," + b)[1..] == b;
    } else {
      assert (a + "," + b)[1..] == a[1..] + "," + b;
      SplitFirst(a[1..], b);
      assert [a[0]] + a[1..] == a;
      assert ([a[1..]] + Split(b))[1..] == Split(b) && [a[1..]][1..] == [];
    }
  }

  lemma {:induction false} SplitJoin(ps: seq<Piece>)
    requires ps != [] && forall i | 0 <= i < |ps| :: PieceOk(ps[i]) && ',' !in ps[i].text
    ensures |Split(Join(ps))| == |ps|
    ensures forall i | 0 <= i < |ps| :: Split(Join(ps))[i] == Printed(ps[i])
  {
    CommasOfPiece(ps[0]);
    NoCommas(ps[0].text);
    NoCommas(Printed(ps[0]));
    if |ps| > 1 {
      SplitFirst(Printed(ps[0]), Join(ps[1..]));
      SplitJoin(ps[1..]);
    } else {
      SplitFirst(Printed(ps[0]), []);
    }
  }

  lemma {:induction false} JoinEnds(ps: seq<Piece>)
    requires ps != [] && (forall i | 0 <= i < |ps| :: PieceOk(ps[i])) && ps[|ps| - 1].after == []
    ensures Join(ps) != [] && !IsSpace(Join(ps)[|Join(ps)| - 1])
    ensures ps[0].before == [] ==> !IsSpace(Join(ps)[0])
  {
    if |ps| > 1 { JoinEnds(ps[1..]); }
  }

  /** What stands between the brackets of a printed list is its elements. */
  lemma InnerOfPrinted(lead: string, ps: seq<Piece>, tail: string)
    requires ListOk(ps) && Blank(lead) && Blank(tail)
    ensures var v := "[" + (lead + Join(ps) + tail) + "]";
      Bracketed(v) && Inner(v) == Join(ps) && Join(ps) != []
  {
    hide Strip, Join;
    var v := "[" + (lead + Join(ps) + tail) + "]";
    assert v[1..|v| - 1] == lead + Join(ps) + tail;
    JoinEnds(ps);
    StripAround(lead, Join(ps), tail);
  }

  /** An inline list of elements without commas is read back element by element, whatever the
      spacing. */
  lemma PrintedListIsRead<N>(cast: string -> Option<N>, lead: string, ps: seq<Piece>, tail: string)
    requires ListOk(ps) && Blank(lead) && Blank(tail) && forall i | 0 <= i < |ps| :: ',' !in ps[i].text
    ensures var r := ParseScalar(cast, "[" + (lead + Join(ps) + tail) + "]");
      && r.List? && |r.items| == |ps|
      && forall i | 0 <= i < |ps| :: r.items[i] == ParseScalar(cast, ps[i].text)
  {
    hide Join, Strip, Split;
    var v := "[" + (lead + Join(ps) + tail) + "]";
    InnerOfPrinted(lead, ps, tail);
    SplitJoin(ps);
    forall i | 0 <= i < |ps| ensures Strip(Split(Join(ps))[i]) == ps[i].text {
      StripAround(ps[i].before, ps[i].text, ps[i].after);
    }
  }

  /** ... and only such a list: the number of elements read is right exactly when no element contains
      a comma. So a list inside a list is taken apart whenever it has more than one element. */
  lemma ListIsReadIffFlat<N>(cast: string -> Option<N>, lead: string, ps: seq<Piece>, tail: string)
    requires ListOk(ps) && Blank(lead) && Blank(tail)
    ensures var r := ParseScalar(cast, "[" + (lead + Join(ps) + tail) + "]");
      && r.List?
      && (|r.items| == |ps| <==> forall i | 0 <= i < |ps| :: ',' !in ps[i].text)
  {
    hide Join, Strip;
    InnerOfPrinted(lead, ps, tail);
    CommasOfJoin(ps);
    NoTextCommas(ps);
  }

  /** The empty list. */
  lemma EmptyListIsRead<N>(cast: string -> Option<N>, pad: string)
    requires Blank(pad)
    ensures ParseScalar(cast, "[" + pad + "]") == List([])
  {
    var v := "[" + pad + "]";
    assert v[1..|v| - 1] == pad && [] + [] + pad == pad;
    BlankEmpty();
    StripAround([], [], pad);
  }

  // Words and numbers.

  /** The letters of `word` (all small), each in either case. */
  predicate Spells(v: string, word: string) {
    |v| == |word| && forall i | 0 <= i < |v| :: v[i] == word[i] || (v[i] as int + 32 == word[i] as int)
  }

  predicate Small(word: string) { forall i | 0 <= i < |word| :: 'a' <= word[i] <= 'z' }

  lemma {:induction false} LowerSpells(v: string, word: string)
    requires Small(word)
    ensures Lower(v) == word <==> Spells(v, word)
    decreases |v|
  {
    if v != [] && word != [] {
      LowerSpells(v[1..], word[1..]);
      assert Spells(v, word) <==> Spells([v[0]], [word[0]]) && Spells(v[1..], word[1..]) by { SpellsTail(v, word); }
      assert Lower(v) == word <==> LowerChar(v[0]) == word[0] && Lower(v[1..]) == word[1..];
    }
  }

  lemma SpellsTail(v: string, word: string)
    requires v != [] && word != []
    ensures Spells(v, word) <==> Spells([v[0]], [word[0]]) && Spells(v[1..], word[1..])
  {
    if Spells([v[0]], [word[0]]) && Spells(v[1..], word[1..]) {
      forall i | 0 <= i < |v| ensures v[i] == word[i] || (v[i] as int + 32 == word[i] as int) {
        if i == 0 { assert [v[0]][0] == v[0]; } else { assert v[i] == v[1..][i - 1] && word[i] == word[1..][i - 1]; }
      }
    }
  }

  /** Exactly the spellings of true and false are truth values, in any mixture of cases; anything else that is not
      in brackets is the number the cast makes of it, if it makes one. */
  lemma WordsAreRead<N>(cast: string -> Option<N>, v: string)
    ensures ParseScalar(cast, v) == Truth(true) <==> Spells(v, "true")
    ensures ParseScalar(cast, v) == Truth(false) <==> Spells(v, "false")
    ensures !Bracketed(v) && !Spells(v, "true") && !Spells(v, "false") ==>
      ParseScalar(cast, v) == if cast(v).Some? then Number(cast(v).value) else Word(Unquoted(v))
  {
    LowerSpells(v, "true");
    LowerSpells(v, "false");
    if Bracketed(v) { NotSpelt(v); }
    hide Lower, Unquoted, Strip, Split;
  }

  lemma NotSpelt(v: string)
    requires Bracketed(v)
    ensures !Spells(v, "true") && !Spells(v, "false")
  {
    assert v[0] == '[';
    assert "true"[0] == 't' && "false"[0] == 'f';
  }

  predicate Only(s: string, c: char) { forall i | 0 <= i < |s| :: s[i] == c }

  predicate FreeOf(s: string, c: char) { s != [] && s[0] != c && s[|s| - 1] != c }

  lemma {:induction false} TrimmedLeft(a: string, s: string, c: char)
    requires Only(a, c) && s != [] && s[0] != c
    ensures TrimLeft(a + s, c) == s
  {
    if a != [] {
      TrimmedLeft(a[1..], s, c);
      assert (a + s)[1..] == a[1..] + s;
    } else {
      assert a + s == s;
    }
  }

  lemma {:induction false} TrimmedRight(s: string, b: string, c: char)
    requires Only(b, c) && s != [] && s[|s| - 1] != c
    ensures TrimRight(s + b, c) == s
  {
    if b != [] {
      TrimmedRight(s, b[..|b| - 1], c);
      assert (s + b)[..|s + b| - 1] == s + b[..|b| - 1];
    } else {
      assert s + b == s;
    }
  }

  lemma TrimmedBoth(a: string, s: string, b: string, c: char)
    requires Only(a, c) && Only(b, c) && FreeOf(s, c)
    ensures TrimRight(TrimLeft(a + s + b, c), c) == s
  {
    assert a + s + b == a + (s + b);
    TrimmedLeft(a, s + b, c);
    TrimmedRight(s, b, c);
  }

  /** A word loses the double quotes around it and then the single quotes around the rest. */
  lemma QuotesAreStripped(d1: string, s1: string, u: string, s2: string, d2: string)
    requires Only(d1, '"') && Only(d2, '"') && Only(s1, '\'') && Only(s2, '\'')
    requires FreeOf(u, '\'') && FreeOf(s1 + u + s2, '"')
    ensures Unquoted(d1 + (s1 + u + s2) + d2) == u
  {
    TrimmedBoth(d1, s1 + u + s2, d2, '"');
    TrimmedBoth(s1, u, s2, '\'');
  }
}
