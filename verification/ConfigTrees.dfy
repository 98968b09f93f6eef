/** Which trees the configuration syntax can express: what is printed is read back, every tree that
    keeps to the syntax has a text, and every text is read as such a tree. */
module ConfigTrees {
  import opened Numbers
  import opened TextLines
  import opened MiniYaml

  /** The parser reads back exactly the tree that was printed, however deep each level is indented,
      whatever blank lines and comments stand in between and whatever ends the lines. */
  lemma PrintedTreeIsRead<T>(scalar: string -> T, b: Block, noise: seq<string>, ls: seq<Line>)
    requires Printable(b, -1, None) && NoiseOk(noise) && Cut(ls) && Contents(ls) == Render(b) + noise
    ensures var after := ParseText(scalar, TextOf(ls));
      Ordered(after.dicts) && 0 < |after.dicts| && ValueOf(after.dicts, 0) == Map(Entries(scalar, b))
  {
    hide Printable, NoiseOk, Ordered, ValueOf, ParseLines, Cut;
    SplitGivesLines(ls);
    PrintedLinesAreRead(scalar, b, noise);
  }

  // Every tree has a printed form.

  /** A tree of texts that keeps to the syntax: no key with a colon or a leading `#`, no scalar that is
      empty or has a `#`, and neither with white space around it or a line break inside. */
  predicate Expressible(t: Tree<string>) {
    match t
    case Scalar(text) => TextOk(text) && NoBreak(text)
    case Map(entries) => forall key | key in entries :: KeyOk(key) && NoBreak(key) && Expressible(entries[key])
  }

  function Spaces(n: nat): string { seq(n, _ => ' ') }

  lemma SpacesAreBlank(n: nat)
    ensures Blank(Spaces(n)) && |Spaces(n)| == n && Blank([]) && TailOk([])
  {}

  predicate Unbroken(lines: seq<string>) { forall i | 0 <= i < |lines| :: NoBreak(lines[i]) }

  lemma UnbrokenParts(pad: nat, key: string, text: string)
    requires NoBreak(key) && NoBreak(text)
    ensures NoBreak(Spaces(pad) + (key + [] + ":" + ([] + text + [])))
    ensures NoBreak(Spaces(pad) + (key + [] + ":" + []))
  {
    hide IsBreak;
    assert !IsBreak(' ') && !IsBreak(':') by { SpaceIsNoBreak(); }
  }

  lemma SpaceIsNoBreak()
    ensures !IsBreak(' ') && !IsBreak(':')
  {}

  /** The block prints the given keys of the tree at the given indentation. */
  ghost predicate Shows(b: Block, t: Tree<string>, keys: set<string>, indent: nat)
    requires t.Map? && keys <= t.entries.Keys
  {
    && Printable(b, indent - 1, None) && Printable(b, indent - 1, Some(indent)) && Keys(b) == keys
    && Unbroken(Render(b))
    && Entries((text: string) => text, b) == map key | key in keys :: t.entries[key]
  }

  lemma LeafShows(t: Tree<string>, keys: set<string>, key: string, indent: nat, rest: Block)
    requires t.Map? && keys <= t.entries.Keys && key in keys && KeyOk(key)
    requires t.entries[key].Scalar? && TextOk(t.entries[key].value)
    requires NoBreak(key) && NoBreak(t.entries[key].value) && Shows(rest, t, keys - {key}, indent)
    ensures Shows(Leaf([], Spaces(indent), key, [], [], t.entries[key].value, [], rest), t, keys, indent)
  {
    SpacesAreBlank(indent);
    NoNoise();
    UnbrokenParts(indent, key, t.entries[key].value);
    hide Blank, TailOk, KeyOk, TextOk, NoiseOk, NoBreak;
  }

  lemma SubShows(t: Tree<string>, keys: set<string>, key: string, indent: nat, body: Block, rest: Block)
    requires t.Map? && keys <= t.entries.Keys && key in keys && KeyOk(key) && NoBreak(key) && t.entries[key].Map?
    requires Shows(body, t.entries[key], t.entries[key].entries.Keys, indent + 1)
    requires Shows(rest, t, keys - {key}, indent)
    ensures Shows(Sub([], Spaces(indent), key, [], [], body, rest), t, keys, indent)
  {
    SpacesAreBlank(indent);
    NoNoise();
    UnbrokenParts(indent, key, []);
    hide Blank, TailOk, KeyOk, TextOk, NoiseOk, NoBreak;
    var entries := t.entries[key].entries;
    assert entries == map k | k in entries.Keys :: entries[k];
  }

  lemma {:induction false} BlockFor(t: Tree<string>, keys: set<string>, indent: nat) returns (b: Block)
    requires t.Map? && Expressible(t) && keys <= t.entries.Keys
    ensures Shows(b, t, keys, indent)
    decreases t, keys
  {
    if keys == {} {
      b := Nil;
    } else {
      hide Shows, KeyOk, TextOk, NoBreak;
      var key :| key in keys;
      assert KeyOk(key) && NoBreak(key) && Expressible(t.entries[key]);
      var rest := BlockFor(t, keys - {key}, indent);
      match t.entries[key]
      case Scalar(text) =>
        LeafShows(t, keys, key, indent, rest);
        b := Leaf([], Spaces(indent), key, [], [], text, [], rest);
      case Map(entries) =>
        var body := BlockFor(t.entries[key], entries.Keys, indent + 1);
        SubShows(t, keys, key, indent, body, rest);
        b := Sub([], Spaces(indent), key, [], [], body, rest);
    }
  }

  lemma NoNoise()
    ensures NoiseOk([])
  {}

  /** For every such tree there is a text that is read as exactly that tree. */
  lemma EveryTreeIsRead(t: Tree<string>) returns (text: string)
    requires t.Map? && Expressible(t)
    ensures var after := ParseText((s: string) => s, text);
      Ordered(after.dicts) && 0 < |after.dicts| && ValueOf(after.dicts, 0) == t
  {
    hide ParseText, Ordered, ValueOf, Printable, Expressible, NoBreak;
    var b := BlockFor(t, t.entries.Keys, 0);
    NoNoise();
    FeedsCut(Render(b));
    assert Render(b) + [] == Render(b);
    PrintedTreeIsRead((s: string) => s, b, [], WithFeeds(Render(b)));
    assert t.entries == map key | key in t.entries.Keys :: t.entries[key];
    text := TextOf(WithFeeds(Render(b)));
  }

  // And no text is read as anything else.

  lemma {:induction false} RStripTrims(s: string)
    ensures RStrip(s) == [] || !IsSpace(RStrip(s)[|RStrip(s)| - 1])
    ensures RStrip(s) <= s
  {
    hide IsSpace;
    if s != [] && IsSpace(s[|s| - 1]) { RStripTrims(s[..|s| - 1]); }
  }

  lemma {:induction false} LStripTrims(s: string)
    ensures LStrip(s) == [] || !IsSpace(LStrip(s)[0])
    ensures forall c | c in LStrip(s) :: c in s
  {
    hide IsSpace;
    if s != [] && IsSpace(s[0]) { LStripTrims(s[1..]); }
  }

  lemma StripTrims(s: string)
    ensures Strip(s) == [] || Trimmed(Strip(s))
    ensures forall c | c in Strip(s) :: c in s
    ensures s != [] && !IsSpace(s[0]) ==> Strip(s) != [] && Strip(s)[0] == s[0]
  {
    hide LStrip, RStrip, IsSpace;
    LStripTrims(s);
    RStripTrims(LStrip(s));
    if s != [] && !IsSpace(s[0]) {
      assert s == [s[0]] + s[1..];
      RStripKeeps([s[0]], s[1..]);
      assert LStrip(s) == s by { assert [] + s == s; BlankEmpty(); LStripBlank([], s); }
    }
  }

  lemma {:induction false} PartsOf(s: string, c: char)
    ensures c !in Before(s, c)
    ensures (forall x | x in Before(s, c) :: x in s) && (forall x | x in After(s, c) :: x in s)
    ensures if s == [] || s[0] == c then Before(s, c) == [] else Before(s, c) != [] && Before(s, c)[0] == s[0]
  {
    if s != [] && s[0] != c { PartsOf(s[1..], c); }
  }

  /** Whatever a line says, its key and value keep to the syntax. */
  lemma LineKeepsSyntax(raw: string)
    requires !Skipped(raw) && NoBreak(raw)
    ensures KeyOk(Key(raw)) && NoBreak(Key(raw))
    ensures Val(raw) == [] || TextOk(Val(raw))
    ensures NoBreak(Val(raw))
  {
    hide LStrip, RStrip, Strip, Before, After, IsSpace, IsBreak;
    var line := Strip(raw);
    StripTrims(raw);
    PartsOf(line, ':');
    var head := Before(line, ':');
    StripTrims(head);
    assert Key(raw) == Strip(head);
    PartsOf(After(line, ':'), '#');
    StripTrims(Before(After(line, ':'), '#'));
  }

  /** The dictionaries hold only keys and texts of the syntax. */
  predicate Syntactic(dicts: seq<map<string, Value<string>>>) {
    forall id, key | 0 <= id < |dicts| && key in dicts[id] ::
      KeyOk(key) && NoBreak(key) && (dicts[id][key].Text? ==> TextOk(dicts[id][key].value) && NoBreak(dicts[id][key].value))
  }

  lemma LineKeepsDicts(st: State<string>, raw: string)
    requires StackOk(st) && Ordered(st.dicts) && Syntactic(st.dicts) && NoBreak(raw)
    ensures var after := ParseLine((s: string) => s, st, raw);
      Ordered(after.dicts) && Syntactic(after.dicts) && |st.dicts| <= |after.dicts|
  {
    hide Skipped, Key, Val, Indent, KeyOk, TextOk, NoBreak;
    if !Skipped(raw) {
      LineKeepsSyntax(raw);
      IndentIsNatural(raw);
      PopKeepsRoot(st.stack, Indent(raw));
    }
  }

  lemma IndentIsNatural(raw: string)
    ensures 0 <= Indent(raw)
  {
    LStripIsSuffix(raw);
  }

  lemma {:induction false} LinesKeepDicts(st: State<string>, lines: seq<string>)
    requires StackOk(st) && Ordered(st.dicts) && Syntactic(st.dicts) && Unbroken(lines)
    ensures var after := ParseLines((s: string) => s, st, lines);
      Ordered(after.dicts) && Syntactic(after.dicts) && |st.dicts| <= |after.dicts|
    decreases |lines|
  {
    hide ParseLine, Ordered, Syntactic, NoBreak, StackOk;
    if lines != [] {
      LineKeepsDicts(st, lines[0]);
      LinesKeepDicts(ParseLine((s: string) => s, st, lines[0]), lines[1..]);
    }
  }

  lemma {:induction false} ValueKeepsSyntax(dicts: seq<map<string, Value<string>>>, id: nat)
    requires Ordered(dicts) && Syntactic(dicts) && id < |dicts|
    ensures Expressible(ValueOf(dicts, id))
    decreases |dicts| - id
  {
    hide KeyOk, TextOk, NoBreak;
    var entries := ValueOf(dicts, id).entries;
    forall key | key in entries ensures KeyOk(key) && NoBreak(key) && Expressible(entries[key]) {
      if dicts[id][key].Ref? { ValueKeepsSyntax(dicts, dicts[id][key].id); }
    }
  }

  /** Every text whatever is read as a tree that keeps to the syntax. With the existence of a text for
      each of them these are exactly the trees the parser can return. */
  lemma EveryTextIsATree(text: string)
    ensures var after := ParseText((s: string) => s, text);
      && Ordered(after.dicts) && 0 < |after.dicts|
      && Expressible(ValueOf(after.dicts, 0))
  {
    hide ParseLines, ValueOf, NoBreak, Expressible;
    SplitLinesHaveNoBreak(text);
    hide SplitLines;
    LinesKeepDicts(Start<string>(), SplitLines(text));
    hide Ordered, Syntactic;
    ValueKeepsSyntax(ParseText((s: string) => s, text).dicts, 0);
  }
}
