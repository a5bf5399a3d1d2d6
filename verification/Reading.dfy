/** What the Markdown and plain text parser reads off a text: one title per heading line, one body block per stretch of
    visible lines between headings, each in the section of the last named heading before it. */
module Reading {
  import opened Schema
  import opened Text
  import opened Parser

  /** The first visible character is a '#'. */
  predicate Heading(line: string) {
    exists i | 0 <= i < |line| :: line[i] == '#' && Blank(line[..i])
  }

  /** The number of leading '#'. */
  function Level(s: string): (n: nat)
    ensures n <= |s| && (forall i | 0 <= i < n :: s[i] == '#') && (n < |s| ==> s[n] != '#')
  {
    if s != "" && s[0] == '#' then Level(s[1..]) + 1 else 0
  }

  /** What stands behind the hashes of a heading. */
  function Name(line: string): string {
    Strip(Strip(line)[Level(Strip(line))..])
  }

  lemma {:induction false} UnhashMeans(s: string)
    ensures Unhash(s) == s[Level(s)..]
  {
    if s != "" && s[0] == '#' { UnhashMeans(s[1..]); }
  }

  lemma HeadingMeans(line: string)
    ensures IsHeading(line) <==> Heading(line)
  {
    var lo, hi := StripAt(line);
    hide Strip;
    if IsHeading(line) {
      assert line[lo] == '#';
    }
    if Heading(line) {
      var i :| 0 <= i < |line| && line[i] == '#' && Blank(line[..i]);
      FirstVisible(line, lo, hi, i);
    }
  }

  lemma FirstVisible(line: string, lo: nat, hi: nat, i: nat)
    requires lo <= hi <= |line| && Blank(line[..lo]) && Blank(line[hi..]) && (lo < hi ==> !IsSpace(line[lo]))
    requires i < |line| && !IsSpace(line[i]) && Blank(line[..i])
    ensures lo == i < hi
  {
    hide IsSpace, Blank;
    if i < lo { BlankBefore(line, lo, i); }
    if i >= hi { BlankBehind(line, hi, i); }
    if lo < i { BlankBefore(line, i, lo); }
  }

  /** The section behind the first k lines: the name of the last heading among them that has one. */
  ghost predicate SectionAt(lines: seq<string>, k: nat, section: Option<string>)
    requires k <= |lines|
  {
    if section.None? then forall i | 0 <= i < k && Heading(lines[i]) :: Name(lines[i]) == ""
    else exists i | 0 <= i < k ::
      && Heading(lines[i]) && Name(lines[i]) == section.value != ""
      && forall j | i < j < k && Heading(lines[j]) :: Name(lines[j]) == ""
  }

  datatype Span = Span(lo: nat, hi: nat)

  /** A heading line becomes a title. */
  ghost predicate TitleAt(lines: seq<string>, b: Block, span: Span) {
    && span.lo < |lines| && span.hi == span.lo + 1 && Heading(lines[span.lo])
    && b == Block(1, Strip(lines[span.lo]), b.section, TitleBlock, None, Some(Level(Strip(lines[span.lo]))))
    && SectionAt(lines, span.hi, b.section)
  }

  /** A stretch of lines between two headings, or the ends of the text, becomes a body block. */
  ghost predicate BodyAt(lines: seq<string>, b: Block, span: Span) {
    && span.lo < span.hi <= |lines| && (forall i | span.lo <= i < span.hi :: !Heading(lines[i]))
    && (span.lo == 0 || Heading(lines[span.lo - 1])) && (span.hi == |lines| || Heading(lines[span.hi]))
    && b == Block(1, Strip(JoinLines(lines[span.lo..span.hi])), b.section, TextBlock, None, None) && b.text != ""
    && SectionAt(lines, span.lo, b.section)
  }

  ghost predicate BlockAt(lines: seq<string>, b: Block, span: Span) {
    TitleAt(lines, b, span) || BodyAt(lines, b, span)
  }

  /** The blocks are those of the first n lines, in order, and no visible line of them is left out. */
  ghost predicate Reads(lines: seq<string>, n: nat, blocks: seq<Block>, spans: seq<Span>) {
    && n <= |lines| && |spans| == |blocks|
    && (forall k | 0 <= k < |blocks| :: BlockAt(lines, blocks[k], spans[k]) && spans[k].hi <= n)
    && (forall j, k | 0 <= j < k < |spans| :: spans[j].hi <= spans[k].lo)
    && (forall i | 0 <= i < n && !Blank(lines[i]) :: exists k | 0 <= k < |spans| :: spans[k].lo <= i < spans[k].hi)
  }

  /** The loop after n lines: what is flushed has been read up to line r, and the lines from r are pending. */
  ghost predicate ReadingAt(lines: seq<string>, n: nat, p: Parse, r: nat, spans: seq<Span>) {
    && r <= n <= |lines| && p.body == lines[r..n]
    && (forall i | r <= i < n :: !Heading(lines[i])) && (r == 0 || Heading(lines[r - 1]))
    && Reads(lines, r, p.blocks, spans) && SectionAt(lines, r, p.section)
  }

  lemma BlankJoin(lines: seq<string>, i: nat)
    requires Strip(JoinLines(lines)) == "" && i < |lines|
    ensures Blank(lines[i])
  {
    StripBlank(JoinLines(lines));
    hide Strip, IsSpace, JoinLines;
    forall c | c in lines[i] ensures IsSpace(c) { JoinMembers(lines, i, c); }
  }

  lemma FlushReads(lines: seq<string>, n: nat, p: Parse, r: nat, spans: seq<Span>) returns (spans': seq<Span>)
    requires ReadingAt(lines, n, p, r, spans) && (n == |lines| || Heading(lines[n]))
    ensures Reads(lines, n, Flushed(p), spans')
  {
    hide Strip, JoinLines, Heading, Blank, SectionAt;
    if Strip(JoinLines(p.body)) == "" {
      spans' := spans;
      forall i | r <= i < n ensures Blank(lines[i]) {
        assert lines[r..n][i - r] == lines[i];
        BlankJoin(p.body, i - r);
      }
    } else {
      spans' := spans + [Span(r, n)];
      assert r < n by { if r == n { NoLines(); } }
      assert BodyAt(lines, BodyBlock(Strip(JoinLines(p.body)), p.section), Span(r, n));
      ReadsNext(lines, r, p.blocks, spans, BodyBlock(Strip(JoinLines(p.body)), p.section), Span(r, n));
    }
  }

  lemma NoLines()
    ensures Strip(JoinLines([])) == ""
  {
    StripBlank("");
  }

  lemma ReadsNext(lines: seq<string>, n: nat, blocks: seq<Block>, spans: seq<Span>, b: Block, span: Span)
    requires Reads(lines, n, blocks, spans) && BlockAt(lines, b, span) && span.lo == n < span.hi <= |lines|
    ensures Reads(lines, span.hi, blocks + [b], spans + [span])
  {
    hide BlockAt, Blank;
    var spans' := spans + [span];
    forall i | 0 <= i < span.hi && !Blank(lines[i]) ensures exists k | 0 <= k < |spans'| :: spans'[k].lo <= i < spans'[k].hi {
      if i < n {
        var k :| 0 <= k < |spans| && spans[k].lo <= i < spans[k].hi;
        assert spans'[k].lo <= i < spans'[k].hi;
      } else {
        assert spans'[|spans|].lo <= i < spans'[|spans|].hi;
      }
    }
  }

  lemma SectionOfMeans(line: string, section: Option<string>)
    ensures SectionOf(line, section) == if Name(line) != "" then Some(Name(line)) else section
  {
    UnhashMeans(Strip(line));
  }

  lemma SectionNew(lines: seq<string>, k: nat)
    requires k < |lines| && Heading(lines[k]) && Name(lines[k]) != ""
    ensures SectionAt(lines, k + 1, Some(Name(lines[k])))
  {
  }

  lemma SectionSame(lines: seq<string>, k: nat, section: Option<string>)
    requires k < |lines| && SectionAt(lines, k, section) && (Heading(lines[k]) ==> Name(lines[k]) == "")
    ensures SectionAt(lines, k + 1, section)
  {
    hide Heading, Name;
    if section.Some? {
      var i :| 0 <= i < k && Heading(lines[i]) && Name(lines[i]) == section.value != "" && forall j | i < j < k && Heading(lines[j]) :: Name(lines[j]) == "";
    }
  }

  lemma SectionNext(lines: seq<string>, k: nat, section: Option<string>)
    requires k < |lines| && SectionAt(lines, k, section)
    ensures Heading(lines[k]) ==> SectionAt(lines, k + 1, SectionOf(lines[k], section))
    ensures !Heading(lines[k]) ==> SectionAt(lines, k + 1, section)
  {
    SectionOfMeans(lines[k], section);
    hide Heading, SectionAt, Name, SectionOf;
    if Heading(lines[k]) && Name(lines[k]) != "" {
      SectionNew(lines, k);
    } else {
      SectionSame(lines, k, section);
    }
  }

  lemma {:induction false} SectionKept(lines: seq<string>, r: nat, n: nat, section: Option<string>)
    requires r <= n <= |lines| && SectionAt(lines, r, section) && forall i | r <= i < n :: !Heading(lines[i])
    ensures SectionAt(lines, n, section)
    decreases n
  {
    if r < n {
      SectionKept(lines, r, n - 1, section);
      SectionNext(lines, n - 1, section);
    }
  }

  lemma TitleReads(lines: seq<string>, n: nat, section: Option<string>)
    requires n < |lines| && Heading(lines[n]) && SectionAt(lines, n, section)
    ensures TitleAt(lines, TitleOf(lines[n], section), Span(n, n + 1))
  {
    SectionNext(lines, n, section);
    UnhashMeans(Strip(lines[n]));
    hide Strip, Unhash, Heading, SectionAt;
  }

  lemma HeadingStep(lines: seq<string>, n: nat, p: Parse, r: nat, spans: seq<Span>) returns (spans': seq<Span>)
    requires n < |lines| && Heading(lines[n]) && ReadingAt(lines, n, p, r, spans)
    ensures ReadingAt(lines, n + 1, NextLine(p, lines[n]), n + 1, spans')
  {
    HeadingMeans(lines[n]);
    hide IsHeading, Heading, SectionOf, TitleOf, SectionAt, Flushed, Reads;
    var flushed := FlushReads(lines, n, p, r, spans);
    SectionKept(lines, r, n, p.section);
    TitleReads(lines, n, p.section);
    SectionNext(lines, n, p.section);
    ReadsNext(lines, n, Flushed(p), flushed, TitleOf(lines[n], p.section), Span(n, n + 1));
    spans' := flushed + [Span(n, n + 1)];
  }

  lemma PlainStep(lines: seq<string>, n: nat, p: Parse, r: nat, spans: seq<Span>)
    requires n < |lines| && !Heading(lines[n]) && ReadingAt(lines, n, p, r, spans)
    ensures ReadingAt(lines, n + 1, NextLine(p, lines[n]), r, spans)
  {
    hide Heading, SectionAt, NextLine, Reads;
    PlainNext(p, lines[n]);
    assert lines[r..n + 1] == lines[r..n] + [lines[n]];
  }

  lemma PlainNext(p: Parse, line: string)
    requires !Heading(line)
    ensures NextLine(p, line) == p.(body := p.body + [line])
  {
    hide IsHeading, Heading;
    HeadingMeans(line);
  }

  lemma NothingRead(lines: seq<string>)
    ensures ReadingAt(lines, 0, ParseFrom(START, lines[..0]), 0, [])
  {
    hide Heading, Name, Strip;
  }

  lemma ParseSnoc(lines: seq<string>, n: nat)
    requires n < |lines|
    ensures ParseFrom(START, lines[..n + 1]) == NextLine(ParseFrom(START, lines[..n]), lines[n])
  {
    hide NextLine;
    assert lines[..n + 1][..n] == lines[..n];
  }

  lemma {:induction false} ReadPrefix(lines: seq<string>, n: nat) returns (r: nat, spans: seq<Span>)
    requires n <= |lines|
    ensures ReadingAt(lines, n, ParseFrom(START, lines[..n]), r, spans)
  {
    hide ParseFrom, NextLine, Heading, ReadingAt;
    if n == 0 {
      r, spans := 0, [];
      NothingRead(lines);
    } else {
      r, spans := ReadPrefix(lines, n - 1);
      var p := ParseFrom(START, lines[..n - 1]);
      ParseSnoc(lines, n - 1);
      if Heading(lines[n - 1]) {
        spans := HeadingStep(lines, n - 1, p, r, spans);
        r := n;
      } else {
        PlainStep(lines, n - 1, p, r, spans);
      }
    }
  }

  /** The blocks of a text: read off its lines, or one empty block if no line is visible. */
  lemma ParseReads(text: string) returns (spans: seq<Span>)
    ensures var lines := SplitLines(text);
      if forall i | 0 <= i < |lines| :: Blank(lines[i]) then ParseText(text) == [Block(1, "", None, TextBlock, None, None)]
      else Reads(lines, |lines|, ParseText(text), spans)
  {
    hide ParseFrom, SplitLines, Blank, Heading, SectionAt, Strip, Flushed, ReadingAt, BlockAt;
    assert Flushed(ParseFrom(START, SplitLines(text))) != [] ==> ParseText(text) == Flushed(ParseFrom(START, SplitLines(text)));
    hide ParseText;
    var lines := SplitLines(text);
    var p := ParseFrom(START, lines);
    var r, spans0 := ReadPrefix(lines, |lines|);
    assert lines[..|lines|] == lines;
    spans := FlushReads(lines, |lines|, p, r, spans0);
    if Flushed(p) == [] {
      BlankParse(text);
      NothingVisible(lines, spans);
    } else {
      assert BlockAt(lines, Flushed(p)[0], spans[0]);
      NotAllBlank(lines, Flushed(p)[0], spans[0]);
    }
  }

  lemma BlankParse(text: string)
    requires Flushed(ParseFrom(START, SplitLines(text))) == []
    ensures ParseText(text) == [Block(1, "", None, TextBlock, None, None)]
  {
    hide ParseFrom, SplitLines, Flushed, Strip;
    BlankText(text);
  }

  lemma NothingVisible(lines: seq<string>, spans: seq<Span>)
    requires Reads(lines, |lines|, [], spans)
    ensures forall i | 0 <= i < |lines| :: Blank(lines[i])
  {
    hide Blank;
  }

  lemma NotAllBlank(lines: seq<string>, b: Block, span: Span)
    requires BlockAt(lines, b, span)
    ensures exists i | 0 <= i < |lines| :: !Blank(lines[i])
  {
    if TitleAt(lines, b, span) {
      var i :| 0 <= i < |lines[span.lo]| && lines[span.lo][i] == '#';
      assert lines[span.lo][i] in lines[span.lo];
      assert !Blank(lines[span.lo]);
    } else {
      var body := lines[span.lo..span.hi];
      if forall i | 0 <= i < |lines| :: Blank(lines[i]) {
        AllBlank(body);
        StripBlank(JoinLines(body));
      }
    }
  }

  lemma {:induction false} AllBlank(lines: seq<string>)
    requires forall i | 0 <= i < |lines| :: Blank(lines[i])
    ensures Blank(JoinLines(lines))
  {
    hide IsSpace;
    if |lines| > 1 {
      AllBlank(lines[1..]);
      assert IsSpace('\n') by { Newline(); }
    }
  }

  lemma Newline()
    ensures IsSpace('\n')
  {
  }
}
