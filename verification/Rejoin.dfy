/** From a Markdown text to its chunks and back (app/adapters/parser.py, app/ingest/chunker.py). */
module Rejoin {
  import opened Schema
  import opened Text
  import opened Parser
  import opened Chunker

  // ---------- blocks as the parser makes them ----------

  predicate Trimmed(s: string) {
    s != "" && Strip(s) == s
  }

  predicate TrimmedBlocks(blocks: seq<Block>) {
    forall b :: b in blocks ==> Trimmed(b.text)
  }

  lemma {:induction false} LoopTrimmed(lines: seq<string>)
    ensures TrimmedBlocks(ParseFrom(START, lines).blocks) && TrimmedBlocks(Flushed(ParseFrom(START, lines)))
  {
    if lines != [] {
      var n := |lines| - 1;
      LoopTrimmed(lines[..n]);
      StripTwice(lines[n]);
    }
    StripTwice(JoinLines(ParseFrom(START, lines).body));
  }

  /** Parsed blocks are not blank and have no blank margin, except the one block of a blank text. */
  lemma ParsedTrimmed(text: string)
    ensures TrimmedBlocks(ParseText(text)) || ParseText(text) == [BodyBlock("", None)]
  {
    LoopTrimmed(SplitLines(text));
    if Flushed(ParseFrom(START, SplitLines(text))) == [] { BlankText(text); }
  }

  // ---------- chunk contents ----------

  function Contents(ps: seq<Piece>): (r: seq<string>)
    ensures |r| == |ps|
  {
    seq(|ps|, i requires 0 <= i < |ps| => ps[i].content)
  }

  lemma TrimmedEnds(s: string)
    requires Trimmed(s)
    ensures !IsSpace(s[0]) && !IsSpace(s[|s| - 1]) && !Blank(s)
  {
    var lo, hi := StripAt(s);
    assert lo == 0 && hi == |s|;
    StripBlank(s);
  }

  lemma {:induction false} JoinEnds(ls: seq<string>)
    requires ls != [] && forall l :: l in ls ==> Trimmed(l)
    ensures JoinLines(ls) != "" && !IsSpace(JoinLines(ls)[0]) && !IsSpace(JoinLines(ls)[|JoinLines(ls)| - 1])
  {
    assert Trimmed(ls[0]);
    TrimmedEnds(ls[0]);
    hide IsSpace, Trimmed;
    if |ls| > 1 {
      JoinEnds(ls[1..]);
      assert JoinLines(ls) == ls[0] + "\n" + JoinLines(ls[1..]);
    }
  }

  /** Joining trimmed texts needs no stripping. */
  lemma JoinTrimmed(ls: seq<string>)
    requires ls != [] && forall l :: l in ls ==> Trimmed(l)
    ensures Strip(JoinLines(ls)) == JoinLines(ls)
  {
    JoinEnds(ls);
    StripTrimmed(JoinLines(ls));
  }

  lemma {:induction false} TextsAll(bs: seq<Block>)
    requires TrimmedBlocks(bs)
    ensures Texts(bs) == BlockTexts(bs)
  {
    if bs != [] {
      var n := |bs| - 1;
      assert bs[n] in bs;
      TextsAll(bs[..n]);
      TrimmedEnds(bs[n].text);
      assert BlockTexts(bs) == BlockTexts(bs[..n]) + [bs[n].text];
    }
  }

  /** A chunk merged from trimmed blocks is their texts joined, as they are. */
  lemma MergedContent(bs: seq<Block>, order: nat)
    requires bs != [] && TrimmedBlocks(bs)
    ensures MergedPiece(bs, order).content == Render(bs)
  {
    TextsAll(bs);
    forall t | t in BlockTexts(bs) ensures Trimmed(t) {
      var i :| 0 <= i < |bs| && BlockTexts(bs)[i] == t;
      assert bs[i] in bs;
    }
    JoinTrimmed(BlockTexts(bs));
  }

  // ---------- rejoining ----------

  /** No block was cut and nothing was carried over. */
  predicate Plain(es: seq<Emission>) {
    forall e :: e in es ==> e.Merged? && e.carried == 0 && e.members != []
  }

  lemma PlainStep(cfg: Config, front: seq<Emission>, members: seq<Block>)
    requires members != [] && TrimmedBlocks(members)
    ensures Contents(Pieces(front + [Merged(members, 0)], cfg)) == Contents(Pieces(front, cfg)) + [Render(members)]
    ensures AllNew(front + [Merged(members, 0)]) == AllNew(front) + members
  {
    var e, order := Merged(members, 0), |Pieces(front, cfg)|;
    MergedContent(members, order);
    AllVisible(members);
    MergedEmission(members, 0, cfg, order);
    PiecesSnoc(front, e, cfg);
    NewSnoc(front, e);
    hide Pieces, PiecesOf, AllNew, MergedPiece, TrimmedBlocks, Render;
    assert members[0..] == members;
  }

  lemma RenderConcat(a: seq<Block>, b: seq<Block>)
    requires a != [] && b != []
    ensures Render(a + b) == Render(a) + "\n" + Render(b)
  {
    assert BlockTexts(a + b) == BlockTexts(a) + BlockTexts(b);
    JoinConcat(BlockTexts(a), BlockTexts(b));
  }

  lemma {:induction false} PlainPieces(cfg: Config, es: seq<Emission>)
    requires Plain(es) && TrimmedBlocks(AllNew(es))
    ensures es == [] <==> AllNew(es) == []
    ensures es == [] <==> Contents(Pieces(es, cfg)) == []
    ensures JoinLines(Contents(Pieces(es, cfg))) == Render(AllNew(es))
  {
    if es == [] {
      assert BlockTexts([]) == [];
    } else {
      var n := |es| - 1;
      var front, members := es[..n], es[n].members;
      assert es[n] in es && es[n] == Merged(members, 0) && es == front + [es[n]];
      NewSnoc(front, es[n]);
      assert members[0..] == members;
      SplitTrimmed(AllNew(front), members);
      hide Pieces, AllNew, Render, Trimmed, TrimmedBlocks;
      PlainPieces(cfg, front);
      PlainStep(cfg, front, members);
      var c := Contents(Pieces(front, cfg));
      if front != [] {
        JoinConcat(c, [Render(members)]);
        RenderConcat(AllNew(front), members);
      } else {
        assert c + [Render(members)] == [Render(members)] && AllNew(front) + members == members;
      }
    }
  }

  lemma SplitTrimmed(a: seq<Block>, b: seq<Block>)
    requires TrimmedBlocks(a + b)
    ensures TrimmedBlocks(a) && TrimmedBlocks(b)
  {
    assert forall x :: x in a || x in b ==> x in a + b;
  }

  lemma AllVisible(bs: seq<Block>)
    requires TrimmedBlocks(bs)
    ensures forall b :: b in bs ==> !Blank(b.text)
  {
    forall b | b in bs ensures !Blank(b.text) { TrimmedEnds(b.text); }
  }

  lemma {:induction false} VisibleAll(bs: seq<Block>)
    requires forall b :: b in bs ==> !Blank(b.text)
    ensures Visible(bs) == bs
  {
    if bs != [] {
      var n := |bs| - 1;
      VisibleAll(bs[..n]);
      assert bs[n] in bs && bs == bs[..n] + [bs[n]];
    }
  }

  /** Where no block had to be cut and no overlap was carried, the chunks of a Markdown text, joined line by
      line, are a text that parses to the same blocks. */
  lemma ChunksRejoin(cfg: Config, text: string)
    requires Plain(Emissions(cfg, ParseText(text)))
    ensures ParseText(JoinLines(Contents(Pieces(Emissions(cfg, ParseText(text)), cfg)))) == ParseText(text)
  {
    var blocks := ParseText(text);
    var es := Emissions(cfg, blocks);
    Lossless(cfg, blocks);
    ParsedTrimmed(text);
    ParseRender(text);
    if TrimmedBlocks(blocks) {
      AllVisible(blocks);
      VisibleAll(blocks);
      PlainPieces(cfg, es);
    } else {
      BlankChunks(cfg);
    }
  }

  /** A blank text has one empty block, no chunk, and so the empty text to parse again. */
  lemma BlankChunks(cfg: Config)
    ensures Pieces(Emissions(cfg, [BodyBlock("", None)]), cfg) == []
    ensures Render([BodyBlock("", None)]) == "" == JoinLines(Contents([]))
  {
    var b := BodyBlock("", None);
    assert [b][..0] == [] && Blank(b.text);
    assert Loop(cfg, [b]) == Next(cfg, Loop(cfg, []), b) == State([], [], 0);
    assert BlockTexts([b]) == [""];
  }
}
