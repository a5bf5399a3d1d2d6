/** From a text to the chunks an ingest stages (app/ingest/pipeline.py _new_chunks): what the parser and the
    chunker deliver is what the protocol expects. */
module Ingest {
  import opened Schema
  import opened Pipeline
  import opened Incremental
  import opened Protocol
  import Chunker
  import Parser
  import Reuse
  import Simhash
  import Tables

  function NewChunkOf(file: string, target: nat, p: Chunker.Piece): NewChunk {
    NewChunk(ChunkId(file, target, p.order), p.content, Sha256(p.content), Simhash.Simhash(p.content), p.page, p.order, p.skipSummary, p.section)
  }

  /** Each chunk keeps its piece's text, page, section and place, and whether it enters the summaries. */
  ghost predicate Located(chunks: seq<NewChunk>, pieces: seq<Chunker.Piece>) {
    |chunks| == |pieces| && forall i | 0 <= i < |pieces| ::
      && chunks[i].content == pieces[i].content && chunks[i].page == pieces[i].page && chunks[i].section == pieces[i].section
      && chunks[i].order == pieces[i].order && chunks[i].skip == pieces[i].skipSummary
  }

  method NewChunks(file: string, target: nat, pieces: seq<Chunker.Piece>) returns (chunks: seq<NewChunk>)
    ensures |chunks| == |pieces| && forall i | 0 <= i < |pieces| :: chunks[i] == NewChunkOf(file, target, pieces[i])
    ensures Located(chunks, pieces)
  {
    chunks := [];
    for i := 0 to |pieces|
      invariant |chunks| == i && forall j | 0 <= j < i :: chunks[j] == NewChunkOf(file, target, pieces[j])
    {
      chunks := chunks + [NewChunkOf(file, target, pieces[i])];
    }
  }

  /** Chunks as the protocol expects them: consecutive deterministic ids, true hashes and fingerprints. */
  ghost predicate WellMade(file: string, target: nat, chunks: seq<NewChunk>) {
    forall i | 0 <= i < |chunks| ::
      && chunks[i].id == ChunkId(file, target, i) && chunks[i].order == i && chunks[i].content != ""
      && chunks[i].hash == Sha256(chunks[i].content) && chunks[i].simhash == Simhash.Simhash(chunks[i].content)
  }

  lemma PiecesWellMade(file: string, target: nat, cfg: Chunker.Config, blocks: seq<Parser.Block>, chunks: seq<NewChunk>)
    requires var pieces := Chunker.Pieces(Chunker.Emissions(cfg, blocks), cfg);
      |chunks| == |pieces| && forall i | 0 <= i < |pieces| :: chunks[i] == NewChunkOf(file, target, pieces[i])
    ensures WellMade(file, target, chunks)
  {
    hide Chunker.Pieces, Chunker.Emissions, Chunker.AllOk, Chunker.Numbered, WellMade, NewChunkOf;
    Chunker.ChunksWellFormed(cfg, blocks);
    Chunker.PiecesNumbered(cfg, Chunker.Emissions(cfg, blocks));
    NumberedWellMade(file, target, Chunker.Pieces(Chunker.Emissions(cfg, blocks), cfg), chunks);
  }

  lemma NumberedWellMade(file: string, target: nat, pieces: seq<Chunker.Piece>, chunks: seq<NewChunk>)
    requires Chunker.Numbered(pieces, 0)
    requires |chunks| == |pieces| && forall i | 0 <= i < |pieces| :: chunks[i] == NewChunkOf(file, target, pieces[i])
    ensures WellMade(file, target, chunks)
  {
    hide Simhash.Simhash;
  }

  /** Parse, chunk and identify a text. */
  method ChunkText(file: string, target: nat, cfg: Chunker.Config, text: string) returns (chunks: seq<NewChunk>)
    ensures WellMade(file, target, chunks)
    ensures Located(chunks, Chunker.Pieces(Chunker.Emissions(cfg, Parser.ParseText(text)), cfg))
  {
    var parser := new Parser.TextParser();
    var blocks := parser.Run(text);
    var chunker := new Chunker.BlockChunker(cfg);
    var pieces := chunker.ChunkBlocks(blocks);
    chunks := NewChunks(file, target, pieces);
    PiecesWellMade(file, target, cfg, blocks, chunks);
  }

  /** With complete listings of the previous version, such chunks are all that building the sources requires. */
  lemma WellMadeInput(w: World, inp: Input)
    requires WellMade(w.pg.file, Target(w.pg), inp.chunks)
    requires Tables.Lists(inp.prevChunks, set id | id in w.pg.chunks && w.pg.chunks[id].version == Target(w.pg) - 1)
    requires Tables.Lists(inp.prevSummaries, set id | id in w.pg.summaries && w.pg.summaries[id].version == Target(w.pg) - 1)
    ensures Reuse.InputOk(w, inp)
  {
    hide Simhash.Simhash;
  }
}
