/** The indentation parser behind the configuration files. Nested dictionaries are objects that the
    stack and their parents share; here `dicts` holds them all and references are positions in it. */
module MiniYaml {
  import opened Numbers
  import opened TextLines

  // Strings, as Python's methods treat them.

  /** What `str.strip` removes. */
  predicate IsSpace(c: char) {
    || '\t' <= c <= '\r' || '\U{1c}' <= c <= '\U{20}' || c == '\U{85}' || c == '\U{a0}' || c == '\U{1680}'
    || '\U{2000}' <= c <= '\U{200a}' || '\U{2028}' <= c <= '\U{2029}' || c == '\U{202f}' || c == '\U{205f}'
    || c == '\U{3000}'
  }

  function LStrip(s: string): string { if s != [] && IsSpace(s[0]) then LStrip(s[1..]) else s }

  function RStrip(s: string): string { if s != [] && IsSpace(s[|s| - 1]) then RStrip(s[..|s| - 1]) else s }

  function Strip(s: string): string { RStrip(LStrip(s)) }

  /** The part before the first `c`: everything if there is none. */
  function Before(s: string, c: char): string { if s == [] || s[0] == c then [] else [s[0]] + Before(s[1..], c) }

  /** The part after the first `c`: nothing if there is none. */
  function After(s: string, c: char): string { if s == [] then [] else if s[0] == c then s[1..] else After(s[1..], c) }

  // The parser.

  datatype Value<T> = Text(value: T) | Ref(id: nat)

  datatype State<T> = State(dicts: seq<map<string, Value<T>>>, stack: seq<(int, nat)>)

  /** Blank lines and comments. */
  predicate Skipped(raw: string) { Strip(raw) == [] || Strip(raw)[0] == '#' }

  function Indent(raw: string): int { |raw| - |LStrip(raw)| }

  function Key(raw: string): string { Strip(Before(Strip(raw), ':')) }

  function Val(raw: string): string { Strip(Before(After(Strip(raw), ':'), '#')) }

  function PopTo(stack: seq<(int, nat)>, indent: int): seq<(int, nat)> {
    if stack != [] && indent <= stack[|stack| - 1].0 then PopTo(stack[..|stack| - 1], indent) else stack
  }

  /** The stack is never empty, its bottom is the root, its indents strictly increase, and it refers
      to existing dictionaries. */
  predicate StackOk<T>(st: State<T>) {
    && st.stack != [] && st.stack[0] == (-1, 0)
    && (forall i, j | 0 <= i < j < |st.stack| :: st.stack[i].0 < st.stack[j].0)
    && (forall i | 0 <= i < |st.stack| :: st.stack[i].1 < |st.dicts|)
  }

  lemma {:induction false} PopKeepsRoot(stack: seq<(int, nat)>, indent: int)
    requires stack != [] && stack[0].0 < indent
    ensures PopTo(stack, indent) != [] && PopTo(stack, indent) <= stack
    ensures PopTo(stack, indent)[|PopTo(stack, indent)| - 1].0 < indent
  {
    if indent <= stack[|stack| - 1].0 { PopKeepsRoot(stack[..|stack| - 1], indent); }
  }

  lemma {:induction false} LStripIsSuffix(s: string)
    ensures |LStrip(s)| <= |s|
  {
    if s != [] && IsSpace(s[0]) { LStripIsSuffix(s[1..]); }
  }

  function ParseLine<T>(scalar: string -> T, st: State<T>, raw: string): (out: State<T>)
    requires StackOk(st)
    ensures StackOk(out)
  {
    if Skipped(raw) then st
    else
      LStripIsSuffix(raw);
      PopKeepsRoot(st.stack, Indent(raw));
      var stack := PopTo(st.stack, Indent(raw));
      var parent := stack[|stack| - 1].1;
      if Val(raw) == [] then
        State(st.dicts[parent := st.dicts[parent][Key(raw) := Ref(|st.dicts|)]] + [map[]],
              stack + [(Indent(raw), |st.dicts|)])
      else
        State(st.dicts[parent := st.dicts[parent][Key(raw) := Text(scalar(Val(raw)))]], stack)
  }

  function ParseLines<T>(scalar: string -> T, st: State<T>, lines: seq<string>): (out: State<T>)
    requires StackOk(st)
    ensures StackOk(out)
    decreases |lines|
  {
    if lines == [] then st else ParseLines(scalar, ParseLine(scalar, st, lines[0]), lines[1..])
  }

  function Start<T>(): State<T> { State([map[]], [(-1, 0)]) }

  function ParseText<T>(scalar: string -> T, text: string): (out: State<T>)
    ensures StackOk(out)
  {
    ParseLines(scalar, Start(), SplitLines(text))
  }

  class Parser<T(!new)> {
    const scalar: string -> T
    var dicts: seq<map<string, Value<T>>>
    var stack: seq<(int, nat)>

    ghost function Now(): State<T>
      reads this
    {
      State(dicts, stack)
    }

    constructor (scalar: string -> T)
      ensures this.scalar == scalar && Now() == Start()
    {
      this.scalar := scalar;
      dicts, stack := [map[]], [(-1, 0)];
    }

    /** Handles one line. */
    method Feed(raw: string)
      requires StackOk(Now())
      modifies this
      ensures Now() == ParseLine(scalar, old(Now()), raw)
    {
      hide LStrip, RStrip, Before, After;
      if Strip(raw) == "" || Strip(raw)[0] == '#' {
        return;
      }
      LStripIsSuffix(raw);
      var indent := |raw| - |LStrip(raw)|;
      var key := Strip(Before(Strip(raw), ':'));
      var val := Strip(Before(After(Strip(raw), ':'), '#'));
      PopKeepsRoot(stack, indent);
      while stack != [] && indent <= stack[|stack| - 1].0
        invariant dicts == old(dicts) && PopTo(stack, indent) == PopTo(old(stack), indent)
        decreases |stack|
      {
        stack := stack[..|stack| - 1];
      }
      var parent := stack[|stack| - 1].1;
      if val == "" {
        dicts := dicts[parent := dicts[parent][key := Ref(|dicts|)]] + [map[]];
        stack := stack + [(indent, |dicts| - 1)];
      } else {
        dicts := dicts[parent := dicts[parent][key := Text(scalar(val))]];
      }
    }

    /** Parses a text; the result is dictionary 0. */
    method Parse(text: string)
      requires Now() == Start()
      modifies this
      ensures StackOk(Now()) && Now() == ParseText(scalar, text)
    {
      hide ParseLine, SplitLines;
      ghost var start := Now();
      var lines := SplitLines(text);
      for i := 0 to |lines|
        invariant StackOk(Now()) && Now() == ParseLines(scalar, start, lines[..i])
      {
        ParseSnoc(scalar, start, lines, i);
        Feed(lines[i]);
      }
      assert lines[..|lines|] == lines;
    }
  }

  lemma {:induction false} ParseConcat<T>(scalar: string -> T, st: State<T>, a: seq<string>, b: seq<string>)
    requires StackOk(st)
    ensures ParseLines(scalar, st, a + b) == ParseLines(scalar, ParseLines(scalar, st, a), b)
    decreases |a|
  {
    hide ParseLine;
    if a == [] {
      assert a + b == b;
    } else {
      assert (a + b)[0] == a[0] && (a + b)[1..] == a[1..] + b;
      ParseConcat(scalar, ParseLine(scalar, st, a[0]), a[1..], b);
    }
  }

  lemma ParseOne<T>(scalar: string -> T, st: State<T>, raw: string)
    requires StackOk(st)
    ensures ParseLines(scalar, st, [raw]) == ParseLine(scalar, st, raw)
  {
    hide ParseLine;
    assert [raw][1..] == [];
  }

  lemma ParseSnoc<T>(scalar: string -> T, st: State<T>, lines: seq<string>, i: nat)
    requires StackOk(st) && i < |lines|
    ensures ParseLines(scalar, st, lines[..i + 1]) == ParseLine(scalar, ParseLines(scalar, st, lines[..i]), lines[i])
  {
    hide ParseLine;
    assert lines[..i + 1] == lines[..i] + [lines[i]];
    ParseConcat(scalar, st, lines[..i], [lines[i]]);
    ParseOne(scalar, ParseLines(scalar, st, lines[..i]), lines[i]);
  }

  // Printed trees.

  /** A tree of nested maps and scalars. */
  datatype Tree<T> = Scalar(value: T) | Map(entries: map<string, Tree<T>>)

  /** One way to print a map: its entries in any order, each with its own indentation, spacing and
      trailing comment, and any noise before it. */
  datatype Block =
    | Nil
    | Leaf(noise: seq<string>, pad: string, key: string, gap: string, lead: string, text: string, tail: string,
           rest: Block)
    | Sub(noise: seq<string>, pad: string, key: string, gap: string, tail: string, body: Block, rest: Block)

  function Keys(b: Block): set<string> { if b.Nil? then {} else {b.key} + Keys(b.rest) }

  /** The map a block prints. */
  function Entries<T>(scalar: string -> T, b: Block): map<string, Tree<T>> {
    match b
    case Nil => map[]
    case Leaf(_, _, key, _, _, text, _, rest) => Entries(scalar, rest)[key := Scalar(scalar(text))]
    case Sub(_, _, key, _, _, body, rest) => Entries(scalar, rest)[key := Map(Entries(scalar, body))]
  }

  function Render(b: Block): seq<string> {
    match b
    case Nil => []
    case Leaf(noise, pad, key, gap, lead, text, tail, rest) =>
      noise + [pad + (key + gap + ":" + (lead + text + tail))] + Render(rest)
    case Sub(noise, pad, key, gap, tail, body, rest) =>
      noise + [pad + (key + gap + ":" + tail)] + Render(body) + Render(rest)
  }

  predicate Blank(s: string) { forall i | 0 <= i < |s| :: IsSpace(s[i]) }

  /** White space, then possibly a comment. */
  predicate TailOk(s: string) { Blank(s) || exists i | 0 <= i < |s| :: Blank(s[..i]) && s[i] == '#' }

  predicate Trimmed(s: string) { s != [] && !IsSpace(s[0]) && !IsSpace(s[|s| - 1]) }

  predicate KeyOk(s: string) { ':' !in s && (s == [] || (Trimmed(s) && s[0] != '#')) }

  predicate GapOk(key: string, gap: string) { Blank(gap) && (key == [] ==> gap == []) }

  predicate TextOk(s: string) { Trimmed(s) && '#' !in s }

  predicate NoiseOk(noise: seq<string>) { forall i | 0 <= i < |noise| :: TailOk(noise[i]) }

  /** Entries are indented deeper than the entry they belong to, and an entry after a nested map no
      deeper than that map's own line; keys are distinct; scalars are not empty. White space in front of
      the colon of an empty key would be indentation. */
  predicate Printable(b: Block, parent: int, limit: Option<int>) {
    b.Nil? ||
    (&& NoiseOk(b.noise) && Blank(b.pad) && KeyOk(b.key) && GapOk(b.key, b.gap) && TailOk(b.tail)
     && b.key !in Keys(b.rest)
     && |b.pad| > parent && (limit.Some? ==> |b.pad| <= limit.value)
     && match b
        case Leaf(_, _, _, _, lead, text, _, rest) => Blank(lead) && TextOk(text) && Printable(rest, parent, None)
        case Sub(_, pad, _, _, _, body, rest) => Printable(body, |pad|, None) && Printable(rest, parent, Some(|pad|)))
  }

  // What a printed line says.

  lemma {:induction false} LStripBlank(a: string, s: string)
    requires Blank(a) && (s == [] || !IsSpace(s[0]))
    ensures LStrip(a + s) == s
    decreases |a|
  {
    if a == [] {
      assert a + s == s;
    } else {
      assert (a + s)[1..] == a[1..] + s;
      LStripBlank(a[1..], s);
    }
  }

  lemma {:induction false} RStripBlank(s: string, a: string)
    requires Blank(a) && (s == [] || !IsSpace(s[|s| - 1]))
    ensures RStrip(s + a) == s
    decreases |a|
  {
    if a == [] {
      assert s + a == s;
    } else {
      var k := |a| - 1;
      assert (s + a)[..|s + a| - 1] == s + a[..k];
      RStripBlank(s, a[..k]);
    }
  }

  lemma {:induction false} RStripKeeps(s: string, a: string)
    requires s != [] && !IsSpace(s[|s| - 1])
    ensures RStrip(s + a) == s + RStrip(a)
    decreases |a|
  {
    if a == [] {
      assert s + a == s;
    } else {
      var k := |a| - 1;
      assert (s + a)[..|s + a| - 1] == s + a[..k];
      if IsSpace(a[k]) { RStripKeeps(s, a[..k]); }
    }
  }

  lemma {:induction false} BeforeFirst(s: string, c: char, a: string)
    requires c !in s
    ensures Before(s + [c] + a, c) == s && After(s + [c] + a, c) == a
  {
    if s == [] {
      assert s + [c] + a == [c] + a;
    } else {
      assert (s + [c] + a)[1..] == s[1..] + [c] + a;
      BeforeFirst(s[1..], c, a);
    }
  }

  lemma {:induction false} BeforeNone(s: string, c: char)
    requires c !in s
    ensures Before(s, c) == s
  {
    if s != [] { BeforeNone(s[1..], c); }
  }

  lemma NothingToStrip()
    ensures LStrip([]) == [] && RStrip([]) == []
  {}

  /** Stripping surrounding white space off a trimmed (or empty) string gives it back. */
  lemma StripAround(a: string, s: string, b: string)
    requires Blank(a) && Blank(b) && (s == [] || Trimmed(s))
    ensures Strip(a + s + b) == s
  {
    hide LStrip, RStrip;
    if s == [] {
      assert a + s + b == (a + b) + [];
      LStripBlank(a + b, []);
      NothingToStrip();
    } else {
      assert a + s + b == a + (s + b);
      LStripBlank(a, s + b);
      RStripBlank(s, b);
    }
  }

  lemma NoHashInBlank(s: string)
    requires Blank(s)
    ensures '#' !in s && ':' !in s
  {}

  /** The value part: leading space, an optional text, then white space and possibly a comment. */
  lemma ValueRead(lead: string, text: string, tail: string)
    requires Blank(lead) && (text == [] || TextOk(text)) && TailOk(tail)
    ensures Strip(Before(RStrip(lead + text + tail), '#')) == text
  {
    hide LStrip, RStrip, Before, Strip;
    if Blank(tail) {
      PlainValueRead(lead, text, tail);
    } else {
      var i :| 0 <= i < |tail| && Blank(tail[..i]) && tail[i] == '#';
      assert tail == tail[..i] + "#" + tail[i + 1..];
      CommentedValueRead(lead, text, tail[..i], tail[i + 1..]);
      assert lead + text + tail == lead + text + (tail[..i] + "#" + tail[i + 1..]);
    }
  }

  lemma PlainValueRead(lead: string, text: string, tail: string)
    requires Blank(lead) && (text == [] || TextOk(text)) && Blank(tail)
    ensures Strip(Before(RStrip(lead + text + tail), '#')) == text
  {
    hide LStrip, RStrip, Before, Strip;
    NoHashInBlank(lead);
    if text == [] {
      assert lead + text + tail == [] + (lead + tail);
      RStripBlank([], lead + tail);
      BeforeNone([], '#');
      StripAround([], [], []);
      assert [] + [] + [] == "";
    } else {
      RStripBlank(lead + text, tail);
      BeforeNone(lead + text, '#');
      StripAround(lead, text, []);
      assert lead + text + [] == lead + text;
    }
  }

  lemma CommentedValueRead(lead: string, text: string, gap: string, comment: string)
    requires Blank(lead) && (text == [] || TextOk(text)) && Blank(gap)
    ensures Strip(Before(RStrip(lead + text + (gap + "#" + comment)), '#')) == text
  {
    hide LStrip, RStrip, Before, Strip;
    var head := lead + text + gap;
    assert lead + text + (gap + "#" + comment) == (head + "#") + comment;
    RStripKeeps(head + "#", comment);
    NoHashInBlank(lead);
    NoHashInBlank(gap);
    BeforeFirst(head, '#', RStrip(comment));
    StripAround(lead, text, gap);
  }

  /** Indentation, key and value of a printed line are what was printed. */
  lemma LineRead(pad: string, key: string, gap: string, lead: string, text: string, tail: string)
    requires Blank(pad) && KeyOk(key) && GapOk(key, gap) && Blank(lead) && (text == [] || TextOk(text)) && TailOk(tail)
    ensures var raw := pad + (key + gap + ":" + (lead + text + tail));
      !Skipped(raw) && Indent(raw) == |pad| && Key(raw) == key && Val(raw) == text
  {
    hide LStrip, RStrip, Before, After, Blank, TailOk;
    var head, value := key + gap + ":", lead + text + tail;
    var raw := pad + (head + value);
    LStripBlank(pad, head + value);
    RStripKeeps(head, value);
    assert Strip(raw) == head + RStrip(value);
    NoHashInBlank(gap);
    assert head + RStrip(value) == (key + gap) + [':'] + RStrip(value);
    BeforeFirst(key + gap, ':', RStrip(value));
    assert [] + key + gap == key + gap;
    BlankEmpty();
    StripAround([], key, gap);
    ValueRead(lead, text, tail);
  }

  lemma BlankEmpty()
    ensures Blank([])
  {}

  lemma NoiseIsSkipped(raw: string)
    requires TailOk(raw)
    ensures Skipped(raw)
  {
    hide LStrip, RStrip;
    if Blank(raw) {
      assert raw + [] == raw;
      LStripBlank(raw, []);
      NothingToStrip();
    } else {
      var i :| 0 <= i < |raw| && Blank(raw[..i]) && raw[i] == '#';
      assert raw == raw[..i] + raw[i..];
      LStripBlank(raw[..i], raw[i..]);
      assert raw[i..] == "#" + raw[i + 1..];
      RStripKeeps("#", raw[i + 1..]);
    }
  }

  lemma {:induction false} NoiseParses<T>(scalar: string -> T, st: State<T>, noise: seq<string>)
    requires StackOk(st) && NoiseOk(noise)
    ensures ParseLines(scalar, st, noise) == st
  {
    hide Strip, TailOk;
    if noise != [] {
      NoiseIsSkipped(noise[0]);
      NoiseParses(scalar, st, noise[1..]);
    }
  }

  // What the dictionaries mean.

  /** References lead to younger dictionaries, so there are no cycles. */
  predicate Ordered<T>(dicts: seq<map<string, Value<T>>>) {
    forall id, key | 0 <= id < |dicts| && key in dicts[id] && dicts[id][key].Ref? :: id < dicts[id][key].id < |dicts|
  }

  function ValueOf<T>(dicts: seq<map<string, Value<T>>>, id: nat): Tree<T>
    requires Ordered(dicts) && id < |dicts|
    decreases |dicts| - id
  {
    Map(map key | key in dicts[id] ::
      match dicts[id][key]
      case Text(v) => Scalar(v)
      case Ref(j) => ValueOf(dicts, j))
  }

  function ItemValue<T>(dicts: seq<map<string, Value<T>>>, v: Value<T>): Tree<T>
    requires Ordered(dicts) && (v.Ref? ==> v.id < |dicts|)
  {
    match v
    case Text(x) => Scalar(x)
    case Ref(j) => ValueOf(dicts, j)
  }

  /** Only dictionaries from `id` on matter. */
  lemma {:induction false} ValueFrame<T>(d: seq<map<string, Value<T>>>, d': seq<map<string, Value<T>>>, id: nat)
    requires Ordered(d) && Ordered(d') && id < |d| <= |d'| && forall j | id <= j < |d| :: d'[j] == d[j]
    ensures ValueOf(d', id) == ValueOf(d, id)
    decreases |d| - id
  {
    forall key | key in d[id] && d[id][key].Ref? ensures ValueOf(d', d[id][key].id) == ValueOf(d, d[id][key].id) {
      ValueFrame(d, d', d[id][key].id);
    }
  }

  lemma {:induction false} EntriesKeys<T>(scalar: string -> T, b: Block)
    ensures Entries(scalar, b).Keys == Keys(b)
  {
    if !b.Nil? { EntriesKeys(scalar, b.rest); }
  }

  // A printed block is read back, wherever it stands.

  /** What is left on the stack above `base` by earlier siblings is at least as deep as `indent`. */
  predicate Deeper(extra: seq<(int, nat)>, indent: int) { forall i | 0 <= i < |extra| :: extra[i].0 >= indent }

  lemma {:induction false} PopExtra(base: seq<(int, nat)>, extra: seq<(int, nat)>, indent: int)
    requires base != [] && base[|base| - 1].0 < indent && Deeper(extra, indent)
    ensures PopTo(base + extra, indent) == base
    decreases |extra|
  {
    if extra == [] {
      assert base + extra == base;
    } else {
      var k := |extra| - 1;
      assert (base + extra)[..|base + extra| - 1] == base + extra[..k];
      PopExtra(base, extra[..k], indent);
    }
  }

  /** The parser stands inside the entry `base` ends with: dictionary `n`, printed at indent `p`. */
  predicate Inside<T>(st: State<T>, base: seq<(int, nat)>, p: int, n: nat, limit: Option<int>) {
    && StackOk(st) && Ordered(st.dicts) && n < |st.dicts|
    && base != [] && base[|base| - 1] == (p, n)
    && base <= st.stack
    && (if limit.Some? then p < limit.value && Deeper(st.stack[|base|..], limit.value) else st.stack == base)
  }

  /** After a block has been read into dictionary `n`: its entries are there with their values, other
      dictionaries and the old entries of `n` are untouched, and the stack still ends in `base`, up
      to deeper entries. */
  ghost predicate Added<T>(scalar: string -> T, st: State<T>, after: State<T>, b: Block, base: seq<(int, nat)>, p: int,
                           n: nat)
    requires n < |st.dicts|
  {
    && StackOk(after) && base <= after.stack && Deeper(after.stack[|base|..], p + 1)
    && Grown(st.dicts, after.dicts, b, n)
    && Valued(scalar, after.dicts, b, n)
  }

  ghost predicate Grown<T>(d: seq<map<string, Value<T>>>, d': seq<map<string, Value<T>>>, b: Block, n: nat)
    requires n < |d|
  {
    && Ordered(d') && |d| <= |d'|
    && (forall j | 0 <= j < |d| && j != n :: d'[j] == d[j])
    && d'[n].Keys == d[n].Keys + Keys(b)
    && (forall key | key in d[n] :: d'[n][key] == d[n][key])
  }

  ghost predicate Valued<T>(scalar: string -> T, d: seq<map<string, Value<T>>>, b: Block, n: nat)
    requires Ordered(d) && n < |d|
  {
    forall key | key in Keys(b) ::
      key in Entries(scalar, b) && key in d[n] && ItemValue(d, d[n][key]) == Entries(scalar, b)[key]
  }

  lemma LeafLine<T>(scalar: string -> T, st: State<T>, raw: string, base: seq<(int, nat)>, p: int, n: nat,
                    limit: Option<int>)
    requires Inside(st, base, p, n, limit)
    requires !Skipped(raw) && Val(raw) != [] && Indent(raw) > p && (limit.Some? ==> Indent(raw) <= limit.value)
    ensures ParseLine(scalar, st, raw)
         == State(st.dicts[n := st.dicts[n][Key(raw) := Text(scalar(Val(raw)))]], base)
  {
    hide Skipped, Key, Val, Indent;
    PopExtra(base, st.stack[|base|..], Indent(raw));
    assert st.stack == base + st.stack[|base|..];
  }

  lemma SubLine<T>(scalar: string -> T, st: State<T>, raw: string, base: seq<(int, nat)>, p: int, n: nat,
                   limit: Option<int>)
    requires Inside(st, base, p, n, limit)
    requires !Skipped(raw) && Val(raw) == [] && Indent(raw) > p && (limit.Some? ==> Indent(raw) <= limit.value)
    ensures ParseLine(scalar, st, raw)
         == State(st.dicts[n := st.dicts[n][Key(raw) := Ref(|st.dicts|)]] + [map[]],
                  base + [(Indent(raw), |st.dicts|)])
  {
    hide Skipped, Key, Val, Indent;
    PopExtra(base, st.stack[|base|..], Indent(raw));
    assert st.stack == base + st.stack[|base|..];
  }

  lemma {:induction false} BlockIsRead<T>(scalar: string -> T, st: State<T>, b: Block, base: seq<(int, nat)>, p: int,
                                          n: nat, limit: Option<int>)
    requires Inside(st, base, p, n, limit) && Printable(b, p, limit) && Keys(b) !! st.dicts[n].Keys
    ensures Added(scalar, st, ParseLines(scalar, st, Render(b)), b, base, p, n)
    decreases b
  {
    hide ParseLine, StackOk, TailOk, Blank, Skipped, Key, Val, Indent, Ordered;
    match b
    case Nil =>
    case Leaf(noise, pad, key, gap, lead, text, tail, rest) =>
      hide Added, Inside;
      var raw := pad + (key + gap + ":" + (lead + text + tail));
      assert StackOk(st) by { InsideStack(st, base, p, n, limit); }
      EntryIsRead(scalar, st, noise, raw, Render(rest));
      LineRead(pad, key, gap, lead, text, tail);
      LeafLine(scalar, st, raw, base, p, n, limit);
      var st1 := ParseLine(scalar, st, raw);
      LeafInside(scalar, st, st1, b, base, p, n, limit);
      BlockIsRead(scalar, st1, rest, base, p, n, None);
      LeafIsAdded(scalar, st, st1, ParseLines(scalar, st1, Render(rest)), b, base, p, n);
    case Sub(noise, pad, key, gap, tail, body, rest) =>
      hide Added, Inside;
      var raw := pad + (key + gap + ":" + tail);
      assert StackOk(st) by { InsideStack(st, base, p, n, limit); }
      assert noise + [raw] + Render(body) + Render(rest) == noise + [raw] + (Render(body) + Render(rest));
      EntryIsRead(scalar, st, noise, raw, Render(body) + Render(rest));
      BlankEmpty();
      assert [] + [] + tail == tail;
      LineRead(pad, key, gap, [], [], tail);
      SubLine(scalar, st, raw, base, p, n, limit);
      var st1, m := ParseLine(scalar, st, raw), |st.dicts|;
      BodyInside(st, st1, b, base, p, n, limit);
      BlockIsRead(scalar, st1, body, base + [(|pad|, m)], |pad|, m, None);
      var st2 := ParseLines(scalar, st1, Render(body));
      ParseConcat(scalar, st1, Render(body), Render(rest));
      RestInside(scalar, st, st1, st2, b, base, p, n, limit);
      BlockIsRead(scalar, st2, rest, base, p, n, Some(|pad|));
      SubIsAdded(scalar, st, st1, st2, ParseLines(scalar, st2, Render(rest)), b, base, p, n);
  }

  lemma InsideStack<T>(st: State<T>, base: seq<(int, nat)>, p: int, n: nat, limit: Option<int>)
    requires Inside(st, base, p, n, limit)
    ensures StackOk(st)
  {}

  lemma EntryIsRead<T>(scalar: string -> T, st: State<T>, noise: seq<string>, raw: string, rest: seq<string>)
    requires StackOk(st) && NoiseOk(noise)
    ensures ParseLines(scalar, st, noise + [raw] + rest) == ParseLines(scalar, ParseLine(scalar, st, raw), rest)
  {
    hide ParseLine, StackOk, TailOk;
    NoiseParses(scalar, st, noise);
    assert noise + [raw] + rest == noise + ([raw] + rest);
    ParseConcat(scalar, st, noise, [raw] + rest);
    ParseConcat(scalar, st, [raw], rest);
    ParseOne(scalar, st, raw);
  }

  lemma LeafInside<T>(scalar: string -> T, st: State<T>, st1: State<T>, b: Block, base: seq<(int, nat)>, p: int, n: nat,
                      limit: Option<int>)
    requires b.Leaf? && Inside(st, base, p, n, limit) && Keys(b) !! st.dicts[n].Keys && b.key !in Keys(b.rest)
    requires st1 == State(st.dicts[n := st.dicts[n][b.key := Text(scalar(b.text))]], base) && StackOk(st1)
    ensures Inside(st1, base, p, n, None) && Keys(b.rest) !! st1.dicts[n].Keys
  {
    hide StackOk;
  }

  lemma BodyInside<T>(st: State<T>, st1: State<T>, b: Block, base: seq<(int, nat)>, p: int, n: nat, limit: Option<int>)
    requires b.Sub? && Inside(st, base, p, n, limit) && StackOk(st1)
    requires st1 == State(st.dicts[n := st.dicts[n][b.key := Ref(|st.dicts|)]] + [map[]],
                          base + [(|b.pad|, |st.dicts|)])
    ensures Inside(st1, base + [(|b.pad|, |st.dicts|)], |b.pad|, |st.dicts|, None)
    ensures st1.dicts[|st.dicts|] == map[]
  {
    hide StackOk;
  }

  lemma RestInside<T>(scalar: string -> T, st: State<T>, st1: State<T>, st2: State<T>, b: Block, base: seq<(int, nat)>,
                      p: int, n: nat, limit: Option<int>)
    requires b.Sub? && Inside(st, base, p, n, limit) && Keys(b) !! st.dicts[n].Keys && b.key !in Keys(b.rest)
    requires |b.pad| > p
    requires st1 == State(st.dicts[n := st.dicts[n][b.key := Ref(|st.dicts|)]] + [map[]],
                          base + [(|b.pad|, |st.dicts|)])
    requires Added(scalar, st1, st2, b.body, base + [(|b.pad|, |st.dicts|)], |b.pad|, |st.dicts|)
    ensures Inside(st2, base, p, n, Some(|b.pad|)) && Keys(b.rest) !! st2.dicts[n].Keys
  {
    hide StackOk, Ordered, Valued;
    var top := base + [(|b.pad|, |st.dicts|)];
    assert st2.dicts[n] == st1.dicts[n];
    assert base <= top <= st2.stack;
    forall i | 0 <= i < |st2.stack| - |base| ensures st2.stack[|base|..][i].0 >= |b.pad| {
      if i > 0 {
        assert st2.stack[|base|..][i] == st2.stack[|top|..][i - 1];
      } else {
        assert st2.stack[|base|] == top[|base|];
      }
    }
  }

  lemma LeafIsAdded<T>(scalar: string -> T, st: State<T>, st1: State<T>, after: State<T>, b: Block,
                       base: seq<(int, nat)>, p: int, n: nat)
    requires b.Leaf? && n < |st.dicts| && b.key !in Keys(b.rest) && b.key !in st.dicts[n]
    requires st1 == State(st.dicts[n := st.dicts[n][b.key := Text(scalar(b.text))]], base)
    requires Added(scalar, st1, after, b.rest, base, p, n)
    ensures Added(scalar, st, after, b, base, p, n)
  {
    hide StackOk, ValueOf, Ordered;
    assert after.dicts[n][b.key] == st1.dicts[n][b.key];
  }

  lemma SubIsAdded<T>(scalar: string -> T, st: State<T>, st1: State<T>, st2: State<T>, after: State<T>, b: Block,
                      base: seq<(int, nat)>, p: int, n: nat)
    requires b.Sub? && n < |st.dicts| && b.key !in Keys(b.rest) && b.key !in st.dicts[n]
    requires st1 == State(st.dicts[n := st.dicts[n][b.key := Ref(|st.dicts|)]] + [map[]],
                          base + [(|b.pad|, |st.dicts|)])
    requires Added(scalar, st1, st2, b.body, base + [(|b.pad|, |st.dicts|)], |b.pad|, |st.dicts|)
    requires Added(scalar, st2, after, b.rest, base, p, n)
    ensures Added(scalar, st, after, b, base, p, n)
  {
    hide StackOk, Deeper, ValueOf, Ordered;
    var m := |st.dicts|;
    BodyValue(scalar, st1.dicts, st2.dicts, after.dicts, b, n, m);
    assert st2.dicts[n] == st1.dicts[n] && st1.dicts[n] == st.dicts[n][b.key := Ref(m)];
    hide Valued;
    assert Grown(st.dicts, after.dicts, b, n);
    assert after.dicts[n][b.key] == Ref(m);
    RestValued(scalar, after.dicts, b, n);
  }

  lemma RestValued<T>(scalar: string -> T, d: seq<map<string, Value<T>>>, b: Block, n: nat)
    requires Ordered(d) && n < |d| && b.Sub? && b.key in d[n] && d[n][b.key].Ref?
    requires Valued(scalar, d, b.rest, n) && b.key !in Keys(b.rest)
    requires ValueOf(d, d[n][b.key].id) == Map(Entries(scalar, b.body))
    ensures Valued(scalar, d, b, n)
  {
    hide ValueOf, Ordered;
  }

  /** The nested map has its value when its block ends, and keeps it while its siblings are read. */
  lemma BodyValue<T>(scalar: string -> T, d1: seq<map<string, Value<T>>>, d2: seq<map<string, Value<T>>>,
                     d: seq<map<string, Value<T>>>, b: Block, n: nat, m: nat)
    requires b.Sub? && n < m < |d1| && d1[m] == map[]
    requires Grown(d1, d2, b.body, m) && Valued(scalar, d2, b.body, m) && Grown(d2, d, b.rest, n)
    ensures ValueOf(d, m) == Map(Entries(scalar, b.body))
  {
    EntriesKeys(scalar, b.body);
    BlockValue(scalar, d2, b.body, m);
    ValueFrame(d2, d, m);
  }

  /** A dictionary that holds exactly a block's entries stands for the map the block prints. */
  lemma BlockValue<T>(scalar: string -> T, d: seq<map<string, Value<T>>>, b: Block, n: nat)
    requires Ordered(d) && n < |d| && d[n].Keys == Keys(b) && Valued(scalar, d, b, n)
    ensures ValueOf(d, n) == Map(Entries(scalar, b))
  {
    hide Ordered, Keys, Entries;
    EntriesKeys(scalar, b);
    var v := ValueOf(d, n).entries;
    forall key | key in d[n] ensures v[key] == Entries(scalar, b)[key] {}
    assert v == Entries(scalar, b);
  }

  /** The printed lines are read back as the tree that was printed, whatever is left out or put in
      between. */
  lemma PrintedLinesAreRead<T>(scalar: string -> T, b: Block, noise: seq<string>)
    requires Printable(b, -1, None) && NoiseOk(noise)
    ensures var after := ParseLines(scalar, Start<T>(), Render(b) + noise);
      Ordered(after.dicts) && 0 < |after.dicts| && ValueOf(after.dicts, 0) == Map(Entries(scalar, b))
  {
    hide ParseLine, Printable, NoiseOk, ParseLines;
    var st := Start<T>();
    ParseConcat(scalar, st, Render(b), noise);
    assert Inside(st, [(-1, 0)], -1, 0, None);
    BlockIsRead(scalar, st, b, [(-1, 0)], -1, 0, None);
    hide Inside, Valued, ValueOf, Ordered;
    var after := ParseLines(scalar, st, Render(b));
    NoiseParses(scalar, after, noise);
    assert after.dicts[0].Keys == Keys(b);
    BlockValue(scalar, after.dicts, b, 0);
  }
}
