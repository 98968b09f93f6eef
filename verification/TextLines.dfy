/** Python's `str.splitlines`, and texts put together from lines. */
module TextLines {

  /** The characters that end a line. */
  predicate IsBreak(c: char) {
    '\n' <= c <= '\r' || '\U{1c}' <= c <= '\U{1e}' || c == '\U{85}' || c == '\U{2028}' || c == '\U{2029}'
  }

  predicate NoBreak(s: string) { forall c | c in s :: !IsBreak(c) }

  function LineLength(s: string): (n: nat)
    ensures n <= |s| && NoBreak(s[..n]) && (n < |s| ==> IsBreak(s[n]))
  {
    if s == [] || IsBreak(s[0]) then 0
    else
      var n := LineLength(s[1..]);
      assert s[..n + 1] == [s[0]] + s[1..][..n];
      n + 1
  }

  /** Carriage return and line feed together are one break. */
  function BreakLength(s: string): nat
    requires s != []
  {
    if |s| >= 2 && s[0] == '\r' && s[1] == '\n' then 2 else 1
  }

  function SplitLines(text: string): seq<string>
    decreases |text|
  {
    if text == [] then []
    else
      var n := LineLength(text);
      if n == |text| then [text] else [text[..n]] + SplitLines(text[n + BreakLength(text[n..])..])
  }

  lemma {:induction false} SplitLinesHaveNoBreak(text: string)
    ensures forall i | 0 <= i < |SplitLines(text)| :: NoBreak(SplitLines(text)[i])
    decreases |text|
  {
    if text != [] {
      var n := LineLength(text);
      if n == |text| {
        assert text[..n] == text;
      } else {
        SplitLinesHaveNoBreak(text[n + BreakLength(text[n..])..]);
      }
    }
  }

  // Texts from lines.

  datatype Line = Line(content: string, end: string)

  predicate Terminator(s: string) { s == "\r\n" || (|s| == 1 && IsBreak(s[0])) }

  function TextOf(ls: seq<Line>): string { if ls == [] then [] else ls[0].content + ls[0].end + TextOf(ls[1..]) }

  function Contents(ls: seq<Line>): seq<string> { seq(|ls|, i requires 0 <= i < |ls| => ls[i].content) }

  /** Every line is ended by any terminator, of which the last one may be missing if its line is not
      empty. A lone carriage return does not stand in front of a lone line feed. */
  predicate Cut(ls: seq<Line>) {
    ls == [] ||
    (&& NoBreak(ls[0].content)
     && (Terminator(ls[0].end) || (|ls| == 1 && ls[0].end == [] && ls[0].content != []))
     && (ls[0].end == "\r" && |ls| > 1 && ls[1].content == [] ==> ls[1].end != "\n")
     && Cut(ls[1..]))
  }

  lemma {:induction false} LengthOfLine(s: string, rest: string)
    requires NoBreak(s) && (rest == [] || IsBreak(rest[0]))
    ensures LineLength(s + rest) == |s|
  {
    if s == [] {
      assert s + rest == rest;
    } else {
      assert s[0] in s && (s + rest)[1..] == s[1..] + rest;
      assert forall c | c in s[1..] :: c in s;
      LengthOfLine(s[1..], rest);
    }
  }

  /** What follows a cut line does not begin with a line feed that would belong to its terminator. */
  lemma BreakOfLine(ls: seq<Line>)
    requires ls != [] && Cut(ls) && ls[0].end != []
    ensures BreakLength(ls[0].end + TextOf(ls[1..])) == |ls[0].end|
  {
    if ls[0].end == "\r" && |ls| > 1 {
      assert ls[1..][0] == ls[1];
      if ls[1].content != [] { assert ls[1].content[0] in ls[1].content; }
    }
  }

  lemma SplitOneLine(content: string, end: string, rest: string)
    requires NoBreak(content) && end != [] && IsBreak(end[0]) && BreakLength(end + rest) == |end|
    ensures SplitLines(content + end + rest) == [content] + SplitLines(rest)
  {
    hide NoBreak, IsBreak, BreakLength, LineLength;
    var text := content + end + rest;
    assert text == content + (end + rest);
    assert (end + rest)[0] == end[0];
    LengthOfLine(content, end + rest);
    assert text[..|content|] == content && text[|content|..] == end + rest;
    assert text[|content| + |end|..] == rest;
  }

  /** Splitting a text gives back the lines it was put together from. */
  lemma {:induction false} SplitGivesLines(ls: seq<Line>)
    requires Cut(ls)
    ensures SplitLines(TextOf(ls)) == Contents(ls)
    decreases |ls|
  {
    if ls != [] {
      var l := ls[0];
      if l.end == [] {
        assert ls[1..] == [] && TextOf(ls) == l.content + [] + [] == l.content;
        assert l.content + [] == l.content;
        LengthOfLine(l.content, []);
        assert Contents(ls) == [l.content];
      } else {
        BreakOfLine(ls);
        hide SplitLines, NoBreak, BreakLength;
        SplitOneLine(l.content, l.end, TextOf(ls[1..]));
        SplitGivesLines(ls[1..]);
        assert Contents(ls) == [l.content] + Contents(ls[1..]);
      }
    }
  }

  /** Lines without breaks can be put together with line feeds. */
  function WithFeeds(lines: seq<string>): seq<Line> {
    seq(|lines|, i requires 0 <= i < |lines| => Line(lines[i], "\n"))
  }

  lemma {:induction false} FeedsCut(lines: seq<string>)
    requires forall i | 0 <= i < |lines| :: NoBreak(lines[i])
    ensures Cut(WithFeeds(lines)) && Contents(WithFeeds(lines)) == lines
    decreases |lines|
  {
    if lines != [] {
      FeedsCut(lines[1..]);
      assert WithFeeds(lines)[1..] == WithFeeds(lines[1..]);
    }
  }
}
