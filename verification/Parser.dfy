/** Layout blocks and the Markdown / plain text parser (app/adapters/parser.py _parse_text). */
module Parser {
  import opened Schema
  import opened Text

  datatype BlockType = TitleBlock | TextBlock | TableBlock | FigureBlock | EquationBlock | HeaderBlock | FooterBlock | CaptionBlock

  datatype Box = Box(left: real, top: real, right: real, bottom: real)

  datatype Block = Block(page: int, text: string, section: Option<string>, kind: BlockType, bbox: Option<Box>, level: Option<nat>)

  // ---------- headings ----------

  /** s.lstrip("#") */
  function Unhash(s: string): (r: string)
    ensures |r| <= |s|
  {
    if s != "" && s[0] == '#' then Unhash(s[1..]) else s
  }

  predicate IsHeading(line: string) {
    Strip(line) != "" && Strip(line)[0] == '#'
  }

  /** A heading without a name keeps the section it stands in. */
  function SectionOf(line: string, current: Option<string>): Option<string> {
    var name := Strip(Unhash(Strip(line)));
    if name != "" then Some(name) else current
  }

  function TitleOf(line: string, current: Option<string>): Block {
    var s := Strip(line);
    Block(1, s, SectionOf(line, current), TitleBlock, None, Some(|s| - |Unhash(s)|))
  }

  function BodyBlock(text: string, section: Option<string>): Block {
    Block(1, text, section, TextBlock, None, None)
  }

  // ---------- the line loop ----------

  datatype Parse = Parse(blocks: seq<Block>, body: seq<string>, section: Option<string>)

  function Flushed(p: Parse): seq<Block> {
    var joined := Strip(JoinLines(p.body));
    if joined == "" then p.blocks else p.blocks + [BodyBlock(joined, p.section)]
  }

  function NextLine(p: Parse, line: string): Parse {
    if IsHeading(line) then Parse(Flushed(p) + [TitleOf(line, p.section)], [], SectionOf(line, p.section))
    else p.(body := p.body + [line])
  }

  function ParseFrom(p: Parse, lines: seq<string>): Parse {
    if lines == [] then p else NextLine(ParseFrom(p, lines[..|lines| - 1]), lines[|lines| - 1])
  }

  const START: Parse := Parse([], [], None)

  function ParseText(text: string): seq<Block> {
    var blocks := Flushed(ParseFrom(START, SplitLines(text)));
    if blocks == [] then [BodyBlock(Strip(text), None)] else blocks
  }

  /** _parse_text after decoding, with the variables its flush_body shares. */
  class TextParser {
    var blocks: seq<Block>
    var body: seq<string>
    var section: Option<string>

    constructor ()
      ensures View() == START
    {
      blocks, body, section := [], [], None;
    }

    ghost function View(): Parse
      reads this
    {
      Parse(blocks, body, section)
    }

    method FlushBody()
      modifies this`blocks, this`body
      ensures blocks == Flushed(old(View())) && body == []
    {
      if body != [] {
        var joined := Strip(JoinLines(body));
        if joined != "" {
          blocks := blocks + [BodyBlock(joined, section)];
        }
        body := [];
      }
    }

    method TakeLine(line: string)
      modifies this
      ensures View() == NextLine(old(View()), line)
    {
      hide Strip, JoinLines, Unhash;
      var s := Strip(line);
      if s != "" && s[0] == '#' {
        FlushBody();
        var level := |s| - |Unhash(s)|;
        var name := Strip(Unhash(s));
        if name != "" { section := Some(name); }
        blocks := blocks + [Block(1, s, section, TitleBlock, None, Some(level))];
      } else {
        body := body + [line];
      }
    }

    method Run(text: string) returns (result: seq<Block>)
      requires View() == START
      modifies this
      ensures result == ParseText(text)
    {
      hide Strip, NextLine, SplitLines;
      var lines := SplitLines(text);
      for i := 0 to |lines|
        invariant View() == ParseFrom(START, lines[..i])
      {
        assert lines[..i + 1][..i] == lines[..i];
        TakeLine(lines[i]);
      }
      assert lines[..|lines|] == lines;
      FlushBody();
      result := if blocks == [] then [BodyBlock(Strip(text), None)] else blocks;
    }
  }

  // ---------- rendering ----------

  function BlockTexts(blocks: seq<Block>): (r: seq<string>)
    ensures |r| == |blocks|
  {
    seq(|blocks|, i requires 0 <= i < |blocks| => blocks[i].text)
  }

  /** "\n".join of the block texts. */
  function Render(blocks: seq<Block>): string {
    JoinLines(BlockTexts(blocks))
  }

  /** The lines of all blocks in order. */
  function BlockLines(blocks: seq<Block>): seq<string> {
    if blocks == [] then [] else BlockLines(blocks[..|blocks| - 1]) + SplitLines(blocks[|blocks| - 1].text)
  }

  /** The text is made of whole lines, the last of them not empty. */
  predicate WholeText(text: string) {
    var lines := SplitLines(text);
    lines != [] && lines[|lines| - 1] != "" && JoinLines(lines) == text
  }

  predicate WholeTexts(blocks: seq<Block>) {
    forall i | 0 <= i < |blocks| :: WholeText(blocks[i].text)
  }

  lemma {:induction false} RenderLines(blocks: seq<Block>)
    requires WholeTexts(blocks) && blocks != []
    ensures var ls := BlockLines(blocks);
      ls != [] && ls[|ls| - 1] != "" && (forall l :: l in ls ==> BreakFree(l)) && JoinLines(ls) == Render(blocks)
  {
    var n := |blocks| - 1;
    var last := SplitLines(blocks[n].text);
    LinesBreakFree(blocks[n].text);
    hide SplitLines, BreakFree;
    assert BlockTexts(blocks) == BlockTexts(blocks[..n]) + [blocks[n].text];
    if n > 0 {
      RenderLines(blocks[..n]);
      JoinConcat(BlockLines(blocks[..n]), last);
      JoinConcat(BlockTexts(blocks[..n]), [blocks[n].text]);
    } else {
      assert BlockLines(blocks[..n]) == [] && [] + last == last;
    }
  }

  // ---------- reparsing ----------

  predicate PlainLine(l: string) {
    BreakFree(l) && !IsHeading(l)
  }

  lemma {:induction false} ParseAppend(p: Parse, a: seq<string>, b: seq<string>)
    ensures ParseFrom(p, a + b) == ParseFrom(ParseFrom(p, a), b)
  {
    if b == [] {
      assert a + b == a;
    } else {
      var n := |b| - 1;
      assert (a + b)[..|a + b| - 1] == a + b[..n];
      ParseAppend(p, a, b[..n]);
    }
  }

  lemma {:induction false} ParsePlain(p: Parse, lines: seq<string>)
    requires forall l :: l in lines ==> PlainLine(l)
    ensures ParseFrom(p, lines) == p.(body := p.body + lines)
  {
    if lines != [] {
      var n := |lines| - 1;
      ParsePlain(p, lines[..n]);
      assert PlainLine(lines[n]);
      hide IsHeading, BreakFree;
      assert (p.body + lines[..n]) + [lines[n]] == p.body + lines;
    }
  }

  lemma PlainTrimmed(l: string)
    requires PlainLine(l)
    ensures PlainLine(LStrip(l)) && PlainLine(RStrip(l))
  {
    var n := LStripAt(l);
    var m := RStripAt(l);
    StripOneSide(l);
    hide Strip, LStrip, RStrip, IsSpace, IsBreak;
    assert forall c :: c in l[n..] ==> c in l;
    assert forall c :: c in l[..m] ==> c in l;
  }

  lemma {:induction false} LeftTrimPlain(lines: seq<string>)
    requires forall l :: l in lines ==> PlainLine(l)
    ensures forall l :: l in LeftTrim(lines) ==> PlainLine(l)
  {
    hide PlainLine, LStrip;
    if lines != [] {
      if Blank(lines[0]) {
        LeftTrimPlain(lines[1..]);
      } else {
        PlainTrimmed(lines[0]);
      }
    }
  }

  lemma {:induction false} RightTrimPlain(lines: seq<string>)
    requires forall l :: l in lines ==> PlainLine(l)
    ensures forall l :: l in RightTrim(lines) ==> PlainLine(l)
    ensures var r := RightTrim(lines); r != [] ==> r[|r| - 1] != ""
  {
    hide PlainLine, RStrip;
    if lines != [] {
      var m := |lines| - 1;
      if Blank(lines[m]) {
        RightTrimPlain(lines[..m]);
      } else {
        PlainTrimmed(lines[m]);
        RStripConcat("", lines[m]);
      }
    }
  }

  /** Body text, split again, gives plain lines that join to the same text. */
  lemma BodyLines(body: seq<string>)
    requires (forall l :: l in body ==> PlainLine(l)) && Strip(JoinLines(body)) != ""
    ensures var text := Strip(JoinLines(body));
      WholeText(text) && Strip(text) == text && forall l :: l in SplitLines(text) ==> PlainLine(l)
  {
    LeftTrimPlain(body);
    LeftTrimJoin(body);
    var left := LeftTrim(body);
    RightTrimPlain(left);
    RightTrimJoin(left);
    var ls := RightTrim(left);
    StripTwice(JoinLines(body));
    hide SplitLines, RightTrim, LeftTrim, Strip, PlainLine;
    assert ls != [];
    assert forall l :: l in ls ==> BreakFree(l) by { PlainBreakFree(ls); }
    SplitJoin(ls);
  }

  lemma PlainBreakFree(ls: seq<string>)
    requires forall l :: l in ls ==> PlainLine(l)
    ensures forall l :: l in ls ==> BreakFree(l)
  {
  }

  lemma TitleLines(line: string)
    requires BreakFree(line) && IsHeading(line)
    ensures var s := Strip(line); WholeText(s) && SplitLines(s) == [s] && Strip(s) == s
  {
    var s := Strip(line);
    var lo, hi := StripAt(line);
    StripTwice(line);
    assert BreakFree(s);
    SplitJoin([s]);
  }

  /** What the loop knows: reparsing its blocks leads to the same blocks and section. */
  ghost predicate Settled(p: Parse) {
    && (forall l :: l in p.body ==> PlainLine(l))
    && WholeTexts(p.blocks) && ParseFrom(START, BlockLines(p.blocks)) == Parse(p.blocks, [], p.section)
  }

  lemma LinesSnoc(blocks: seq<Block>, b: Block)
    ensures BlockLines(blocks + [b]) == BlockLines(blocks) + SplitLines(b.text)
  {
    assert (blocks + [b])[..|blocks|] == blocks;
  }

  /** Reparsing a body block leaves its lines pending again. */
  lemma PendingAgain(blocks: seq<Block>, section: Option<string>, text: string)
    requires ParseFrom(START, BlockLines(blocks)) == Parse(blocks, [], section)
    requires forall l :: l in SplitLines(text) ==> PlainLine(l)
    ensures ParseFrom(START, BlockLines(blocks + [BodyBlock(text, section)])) == Parse(blocks, SplitLines(text), section)
  {
    LinesSnoc(blocks, BodyBlock(text, section));
    hide PlainLine, SplitLines, BlockLines;
    ParseAppend(START, BlockLines(blocks), SplitLines(text));
    ParsePlain(Parse(blocks, [], section), SplitLines(text));
    hide ParseFrom;
    assert [] + SplitLines(text) == SplitLines(text);
  }

  /** Reparsing what a flush produces leads back to it. */
  lemma FlushSettled(p: Parse)
    requires Settled(p)
    ensures WholeTexts(Flushed(p))
    ensures var q := ParseFrom(START, BlockLines(Flushed(p))); Flushed(q) == Flushed(p) && q.section == p.section
  {
    var joined := Strip(JoinLines(p.body));
    if joined == "" {
      NothingPending(p.blocks, p.section);
    } else {
      BodyLines(p.body);
      PendingAgain(p.blocks, p.section, joined);
      assert JoinLines(SplitLines(joined)) == joined && WholeText(joined);
    }
    hide SplitLines, Strip, PlainLine, WholeText, BlockLines, ParseFrom, JoinLines;
  }

  lemma NothingPending(blocks: seq<Block>, section: Option<string>)
    ensures Flushed(Parse(blocks, [], section)) == blocks
  {
  }

  lemma TitleAgain(line: string, section: Option<string>)
    requires BreakFree(line) && IsHeading(line)
    ensures var s := Strip(line);
      && IsHeading(s) && SectionOf(s, section) == SectionOf(line, section) && TitleOf(s, section) == TitleOf(line, section)
      && WholeText(s) && SplitLines(s) == [s] && TitleOf(line, section).text == s
  {
    TitleLines(line);
  }

  lemma HeadingSettled(p: Parse, line: string)
    requires Settled(p) && BreakFree(line) && IsHeading(line)
    ensures Settled(NextLine(p, line))
  {
    var s, blocks, title := Strip(line), Flushed(p), TitleOf(line, p.section);
    FlushSettled(p);
    TitleAgain(line, p.section);
    LinesSnoc(blocks, title);
    var q := ParseFrom(START, BlockLines(blocks));
    ParseAppend(START, BlockLines(blocks), [s]);
    OneLine(q, s);
    hide Settled, IsHeading, SectionOf, TitleOf, Strip, SplitLines, BlockLines, ParseFrom, Flushed, WholeText;
    HeadingDone(p, line, s, q, blocks, title);
  }

  lemma OneLine(p: Parse, line: string)
    ensures ParseFrom(p, [line]) == NextLine(p, line)
  {
    assert [line][..0] == [];
  }

  lemma HeadingDone(p: Parse, line: string, s: string, q: Parse, blocks: seq<Block>, title: Block)
    requires IsHeading(line) && IsHeading(s) && blocks == Flushed(p) == Flushed(q) && q.section == p.section
    requires title == TitleOf(line, p.section) == TitleOf(s, p.section) && SectionOf(s, p.section) == SectionOf(line, p.section)
    requires WholeTexts(blocks) && WholeText(title.text)
    requires ParseFrom(START, BlockLines(blocks + [title])) == NextLine(q, s)
    ensures Settled(NextLine(p, line))
  {
    hide IsHeading, SectionOf, TitleOf, BlockLines, ParseFrom, Flushed, WholeText;
  }

  lemma LineSettled(p: Parse, line: string)
    requires Settled(p) && BreakFree(line)
    ensures Settled(NextLine(p, line))
  {
    if IsHeading(line) {
      HeadingSettled(p, line);
    } else {
      assert PlainLine(line);
      hide IsHeading, BreakFree, BlockLines, ParseFrom, WholeTexts;
    }
  }

  lemma {:induction false} LoopSettled(lines: seq<string>)
    requires forall l :: l in lines ==> BreakFree(l)
    ensures Settled(ParseFrom(START, lines))
  {
    if lines != [] {
      var n := |lines| - 1;
      LoopSettled(lines[..n]);
      LineSettled(ParseFrom(START, lines[..n]), lines[n]);
    }
  }

  /** Parsing is a fixpoint of rendering: types, levels and sections come back as they were. */
  lemma ParseRender(text: string)
    ensures ParseText(Render(ParseText(text))) == ParseText(text)
  {
    var p := ParseFrom(START, SplitLines(text));
    LinesBreakFree(text);
    LoopSettled(SplitLines(text));
    FlushSettled(p);
    if Flushed(p) != [] {
      RenderLines(Flushed(p));
      SplitJoin(BlockLines(Flushed(p)));
    } else {
      BlankText(text);
    }
  }

  lemma {:induction false} NoBlocks(lines: seq<string>)
    requires ParseFrom(START, lines).blocks == []
    ensures ParseFrom(START, lines).body == lines
  {
    if lines != [] {
      var n := |lines| - 1;
      NoBlocks(lines[..n]);
      assert lines == lines[..n] + [lines[n]];
    }
  }

  /** Only a text without visible characters has no blocks, and it falls back to one empty block. */
  lemma BlankText(text: string)
    requires Flushed(ParseFrom(START, SplitLines(text))) == []
    ensures Strip(text) == ""
  {
    var lines := SplitLines(text);
    NoBlocks(lines);
    StripBlank(JoinLines(lines));
    forall l | l in lines ensures Blank(l) {
      var i :| 0 <= i < |lines| && lines[i] == l;
      forall c | c in l ensures IsSpace(c) { JoinMembers(lines, i, c); }
    }
    BlankLines(text);
    StripBlank(text);
  }
}
