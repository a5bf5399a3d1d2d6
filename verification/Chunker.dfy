/** Layout-aware merging of blocks into chunks (app/ingest/chunker.py chunk_blocks). */
module Chunker {
  import opened Schema
  import opened Tables
  import opened Text
  import opened Parser

  datatype Piece = Piece(content: string, page: int, section: Option<string>, order: nat, position: Option<seq<(int, Box)>>, skipSummary: bool)

  /** The cl100k tokenizer. */
  const Encode: string -> seq<int>
  const Decode: seq<int> -> string

  predicate Barrier(b: Block) {
    b.kind == TableBlock || b.kind == FigureBlock
  }

  function Tok(b: Block): nat {
    |Encode(b.text)|
  }

  function TokSum(bs: seq<Block>): nat {
    if bs == [] then 0 else TokSum(bs[..|bs| - 1]) + Tok(bs[|bs| - 1])
  }

  /** The chunk size in tokens and what is derived from it. */
  datatype Config = Config(size: nat, overlap: real) {
    /** max(1, int(size * (1 - overlap))) */
    function Step(): (step: nat)
      ensures step >= 1
    {
      var x := (size as real * (1.0 - overlap)).Floor;
      if x < 1 then 1 else x
    }

    /** max(0, int(size * overlap)) */
    function OverlapTokens(): nat {
      var x := (size as real * overlap).Floor;
      if x < 0 then 0 else x
    }
  }

  // ---------- what is emitted ----------

  /** One emission of the block loop: merged blocks, of which the first `carried` repeat the end of the
      previous emission, or one oversized block cut into token windows. */
  datatype Emission = Merged(members: seq<Block>, carried: nat) | Slid(block: Block)

  function PosOf(members: seq<Block>): seq<(int, Box)> {
    if members == [] then []
    else
      var b := members[|members| - 1];
      PosOf(members[..|members| - 1]) + if b.bbox.Some? then [(b.page, b.bbox.value)] else []
  }

  function Position(members: seq<Block>): Option<seq<(int, Box)>> {
    if PosOf(members) == [] then None else Some(PosOf(members))
  }

  /** Texts of the blocks that have any. */
  function Texts(members: seq<Block>): seq<string> {
    if members == [] then []
    else Texts(members[..|members| - 1]) + if Blank(members[|members| - 1].text) then [] else [members[|members| - 1].text]
  }

  function MergedPiece(members: seq<Block>, order: nat): Piece
    requires members != []
  {
    Piece(Strip(JoinLines(Texts(members))), members[0].page, members[0].section, order, Position(members),
          exists b :: b in members && Barrier(b))
  }

  /** Token windows from `start` on: the last one is the first to reach the end. */
  function WindowsFrom(toks: seq<int>, start: nat, size: nat, step: nat): seq<seq<int>>
    requires step >= 1
    decreases |toks| - start
  {
    if start >= |toks| then []
    else
      var end := if start + size <= |toks| then start + size else |toks|;
      [toks[start..end]] + if start + size >= |toks| then [] else WindowsFrom(toks, start + step, size, step)
  }

  /** Windows that decode to nothing visible give no chunk. */
  function SlidePieces(b: Block, windows: seq<seq<int>>, order: nat): seq<Piece> {
    if windows == [] then []
    else
      var n := |windows| - 1;
      var pieces := SlidePieces(b, windows[..n], order);
      var content := Strip(Strip(Decode(windows[n])));
      pieces + if content == "" then [] else [Piece(content, b.page, b.section, order + |pieces|, Position([b]), false)]
  }

  function PiecesOf(e: Emission, cfg: Config, order: nat): seq<Piece> {
    match e
    case Merged(members, _) => if members == [] || Texts(members) == [] then [] else [MergedPiece(members, order)]
    case Slid(b) => SlidePieces(b, WindowsFrom(Encode(b.text), 0, cfg.size, cfg.Step()), order)
  }

  function Pieces(es: seq<Emission>, cfg: Config): seq<Piece> {
    if es == [] then []
    else
      var ps := Pieces(es[..|es| - 1], cfg);
      ps + PiecesOf(es[|es| - 1], cfg, |ps|)
  }

  // ---------- the block loop ----------

  datatype State = State(emitted: seq<Emission>, pending: seq<Block>, carried: nat)

  function Flush(s: State): State {
    State(if s.pending != [] then s.emitted + [Merged(s.pending, s.carried)] else s.emitted, [], 0)
  }

  /** The longest run of trailing blocks whose tokens fit the budget one after the other. */
  function GreedyTail(bs: seq<Block>, budget: int): seq<Block> {
    if bs == [] then []
    else
      var b := bs[|bs| - 1];
      if Tok(b) <= budget then GreedyTail(bs[..|bs| - 1], budget - Tok(b)) + [b] else []
  }

  /** The overlap carried into the next chunk: never the whole of the previous one. */
  function Carry(pending: seq<Block>, budget: nat): seq<Block> {
    var tail := GreedyTail(pending, budget);
    if budget > 0 && 0 < |tail| < |pending| then tail else []
  }

  function Next(cfg: Config, s: State, b: Block): State {
    if Blank(b.text) then s
    else if Barrier(b) then Flush(s).(emitted := Flush(s).emitted + [Merged([b], 0)])
    else if b.kind == TitleBlock then Flush(s).(pending := [b])
    else if Tok(b) > cfg.size then Flush(s).(emitted := Flush(s).emitted + [Slid(b)])
    else if s.pending != [] && TokSum(s.pending) + Tok(b) > cfg.size then
      var tail := Carry(s.pending, cfg.OverlapTokens());
      State(Flush(s).emitted, tail + [b], |tail|)
    else s.(pending := s.pending + [b])
  }

  function Loop(cfg: Config, blocks: seq<Block>): State {
    if blocks == [] then State([], [], 0) else Next(cfg, Loop(cfg, blocks[..|blocks| - 1]), blocks[|blocks| - 1])
  }

  function Emissions(cfg: Config, blocks: seq<Block>): seq<Emission> {
    Flush(Loop(cfg, blocks)).emitted
  }

  // ---------- properties ----------

  /** The blocks an emission adds, leaving out what it repeats. */
  function NewBlocks(e: Emission): seq<Block> {
    match e
    case Merged(members, carried) => if carried <= |members| then members[carried..] else []
    case Slid(b) => [b]
  }

  function AllNew(es: seq<Emission>): seq<Block> {
    if es == [] then [] else AllNew(es[..|es| - 1]) + NewBlocks(es[|es| - 1])
  }

  function Visible(blocks: seq<Block>): seq<Block> {
    if blocks == [] then []
    else Visible(blocks[..|blocks| - 1]) + if Blank(blocks[|blocks| - 1].text) then [] else [blocks[|blocks| - 1]]
  }

  /** Shape of merged members: no blank block, a title only in front, a barrier only alone. */
  ghost predicate Shaped(bs: seq<Block>) {
    && (forall b :: b in bs ==> !Blank(b.text))
    && (forall i | 0 < i < |bs| :: bs[i].kind != TitleBlock)
    && (forall b :: b in bs && Barrier(b) ==> |bs| == 1)
  }

  /** At most one overlap above the chunk size, except for a lone title or barrier. */
  ghost predicate Bounded(cfg: Config, bs: seq<Block>) {
    || TokSum(bs) <= cfg.size + cfg.OverlapTokens()
    || (|bs| == 1 && (bs[0].kind == TitleBlock || Barrier(bs[0])))
  }

  /** What the first `carried` members must be: a proper suffix, within the overlap budget, of the previous
      emission's members. */
  ghost predicate CarryOk(cfg: Config, es: seq<Emission>, members: seq<Block>, carried: nat) {
    carried > 0 ==>
      && es != [] && es[|es| - 1].Merged? && carried < |members|
      && ProperSuffix(members[..carried], es[|es| - 1].members)
      && TokSum(members[..carried]) <= cfg.OverlapTokens()
  }

  ghost predicate ProperSuffix(tail: seq<Block>, bs: seq<Block>) {
    |tail| < |bs| && bs[|bs| - |tail|..] == tail
  }

  ghost predicate EmissionOk(cfg: Config, es: seq<Emission>, e: Emission) {
    e.Merged? ==>
      && e.members != [] && e.carried < |e.members|
      && Shaped(e.members) && Bounded(cfg, e.members) && CarryOk(cfg, es, e.members, e.carried)
  }

  ghost predicate AllOk(cfg: Config, es: seq<Emission>) {
    forall i | 0 <= i < |es| :: EmissionOk(cfg, es[..i], es[i])
  }

  ghost predicate LoopOk(cfg: Config, s: State) {
    && AllOk(cfg, s.emitted)
    && (s.pending == [] ==> s.carried == 0)
    && (s.pending != [] ==> EmissionOk(cfg, s.emitted, Merged(s.pending, s.carried)))
    && (forall b :: b in s.pending ==> !Barrier(b))
  }

  lemma TokSumSnoc(bs: seq<Block>, b: Block)
    ensures TokSum(bs + [b]) == TokSum(bs) + Tok(b)
  {
    assert (bs + [b])[..|bs|] == bs;
  }

  lemma {:induction false} TailSum(bs: seq<Block>, budget: int)
    requires budget >= 0
    ensures TokSum(GreedyTail(bs, budget)) <= budget
  {
    if bs != [] && Tok(bs[|bs| - 1]) <= budget {
      var n := |bs| - 1;
      TailSum(bs[..n], budget - Tok(bs[n]));
      var t := GreedyTail(bs[..n], budget - Tok(bs[n]));
      assert (t + [bs[n]])[..|t|] == t;
    }
  }

  lemma {:induction false} TailSuffix(bs: seq<Block>, budget: int) returns (k: nat)
    ensures k <= |bs| && GreedyTail(bs, budget) == bs[k..]
  {
    if bs != [] && Tok(bs[|bs| - 1]) <= budget {
      var n := |bs| - 1;
      k := TailSuffix(bs[..n], budget - Tok(bs[n]));
      assert bs[..n][k..] + [bs[n]] == bs[k..];
    } else {
      k := |bs|;
    }
  }

  lemma AllOkSnoc(cfg: Config, es: seq<Emission>, e: Emission)
    requires AllOk(cfg, es) && EmissionOk(cfg, es, e)
    ensures AllOk(cfg, es + [e])
  {
    hide EmissionOk;
    forall i | 0 <= i < |es + [e]| ensures EmissionOk(cfg, (es + [e])[..i], (es + [e])[i]) {
      if i < |es| {
        assert (es + [e])[..i] == es[..i];
      } else {
        assert (es + [e])[..i] == es;
      }
    }
  }

  lemma FlushOk(cfg: Config, s: State)
    requires LoopOk(cfg, s)
    ensures AllOk(cfg, Flush(s).emitted)
  {
    if s.pending != [] {
      AllOkSnoc(cfg, s.emitted, Merged(s.pending, s.carried));
    }
  }

  /** A proper suffix of a chunk holds no title: titles stand in front. */
  lemma SuffixPlain(tail: seq<Block>, bs: seq<Block>)
    requires Shaped(bs) && (forall b :: b in bs ==> !Barrier(b)) && ProperSuffix(tail, bs)
    ensures forall b | b in tail :: !Blank(b.text) && !Barrier(b) && b.kind != TitleBlock
  {
    hide Blank, Barrier;
    forall b | b in tail ensures !Blank(b.text) && !Barrier(b) && b.kind != TitleBlock {
      var i :| 0 <= i < |tail| && tail[i] == b;
      assert bs[|bs| - |tail| + i] == b && b in bs;
    }
  }

  lemma PlainShaped(tail: seq<Block>, b: Block)
    requires forall c | c in tail :: !Blank(c.text) && !Barrier(c) && c.kind != TitleBlock
    requires !Blank(b.text) && !Barrier(b) && b.kind != TitleBlock
    ensures Shaped(tail + [b])
  {
    hide Blank, Barrier;
    forall c | c in tail + [b] ensures !Blank(c.text) && !Barrier(c) && c.kind != TitleBlock {
      assert c in tail || c == b;
    }
    forall i | 0 < i < |tail + [b]| ensures (tail + [b])[i].kind != TitleBlock {
      assert (tail + [b])[i] in tail + [b];
    }
  }

  lemma CarrySuffix(bs: seq<Block>, budget: nat)
    requires bs != []
    ensures var tail := Carry(bs, budget); ProperSuffix(tail, bs) && TokSum(tail) <= budget
  {
    var k := TailSuffix(bs, budget);
    TailSum(bs, budget);
    if Carry(bs, budget) != [] {
      assert |bs| - |bs[k..]| == k;
    }
  }

  /** A prose block that overflows the pending chunk starts a new one behind the carried overlap. */
  lemma OverflowOk(cfg: Config, s: State, b: Block)
    requires LoopOk(cfg, s) && s.pending != [] && !Blank(b.text) && !Barrier(b) && b.kind != TitleBlock && Tok(b) <= cfg.size
    ensures var tail := Carry(s.pending, cfg.OverlapTokens());
      EmissionOk(cfg, Flush(s).emitted, Merged(tail + [b], |tail|)) && forall c :: c in tail ==> !Barrier(c)
  {
    var tail := Carry(s.pending, cfg.OverlapTokens());
    var bs := tail + [b];
    CarrySuffix(s.pending, cfg.OverlapTokens());
    hide Carry, Blank, Barrier, Shaped, AllOk, Tok;
    SuffixPlain(tail, s.pending);
    PlainShaped(tail, b);
    assert bs[..|bs| - 1] == tail;
    assert TokSum(bs) == TokSum(tail) + Tok(b);
    hide TokSum, ProperSuffix;
    assert CarryOk(cfg, Flush(s).emitted, bs, |tail|);
  }

  lemma AppendOk(cfg: Config, s: State, b: Block)
    requires LoopOk(cfg, s) && !Blank(b.text) && !Barrier(b) && b.kind != TitleBlock
    requires s.pending == [] ==> Tok(b) <= cfg.size
    requires s.pending != [] ==> TokSum(s.pending) + Tok(b) <= cfg.size
    ensures EmissionOk(cfg, s.emitted, Merged(s.pending + [b], s.carried))
  {
    var bs := s.pending + [b];
    assert bs[..|bs| - 1] == s.pending;
    if s.pending != [] {
      assert bs[..s.carried] == s.pending[..s.carried];
    }
  }

  lemma NextOk(cfg: Config, s: State, b: Block)
    requires LoopOk(cfg, s)
    ensures LoopOk(cfg, Next(cfg, s, b))
  {
    FlushOk(cfg, s);
    if Blank(b.text) {
    } else if Barrier(b) {
      AllOkSnoc(cfg, Flush(s).emitted, Merged([b], 0));
    } else if b.kind == TitleBlock {
    } else if Tok(b) > cfg.size {
      AllOkSnoc(cfg, Flush(s).emitted, Slid(b));
    } else if s.pending != [] && TokSum(s.pending) + Tok(b) > cfg.size {
      OverflowOk(cfg, s, b);
    } else {
      AppendOk(cfg, s, b);
    }
  }

  lemma {:induction false} LoopKeepsOk(cfg: Config, blocks: seq<Block>)
    ensures LoopOk(cfg, Loop(cfg, blocks))
  {
    if blocks != [] {
      LoopKeepsOk(cfg, blocks[..|blocks| - 1]);
      NextOk(cfg, Loop(cfg, blocks[..|blocks| - 1]), blocks[|blocks| - 1]);
    }
  }

  /** Chunk shape and bound, for every block sequence and every size and overlap. */
  lemma ChunksWellFormed(cfg: Config, blocks: seq<Block>)
    ensures AllOk(cfg, Emissions(cfg, blocks))
  {
    LoopKeepsOk(cfg, blocks);
    FlushOk(cfg, Loop(cfg, blocks));
  }

  // ---------- nothing is lost ----------

  lemma NewSnoc(es: seq<Emission>, e: Emission)
    ensures AllNew(es + [e]) == AllNew(es) + NewBlocks(e)
  {
    assert (es + [e])[..|es|] == es;
  }

  lemma FlushNew(s: State)
    requires s.carried <= |s.pending|
    ensures AllNew(Flush(s).emitted) == AllNew(s.emitted) + s.pending[s.carried..]
  {
    if s.pending != [] { NewSnoc(s.emitted, Merged(s.pending, s.carried)); }
  }

  lemma NextNew(cfg: Config, s: State, b: Block)
    requires LoopOk(cfg, s)
    ensures var s' := Next(cfg, s, b);
      s'.carried <= |s'.pending|
      && AllNew(s'.emitted) + s'.pending[s'.carried..]
         == (AllNew(s.emitted) + s.pending[s.carried..]) + if Blank(b.text) then [] else [b]
  {
    hide Blank, AllNew;
    FlushNew(s);
    if Blank(b.text) {
    } else if Barrier(b) {
      NewSnoc(Flush(s).emitted, Merged([b], 0));
    } else if b.kind == TitleBlock {
    } else if Tok(b) > cfg.size {
      NewSnoc(Flush(s).emitted, Slid(b));
    } else if s.pending != [] && TokSum(s.pending) + Tok(b) > cfg.size {
      var tail := Carry(s.pending, cfg.OverlapTokens());
      assert (tail + [b])[|tail|..] == [b];
    } else {
      assert (s.pending + [b])[s.carried..] == s.pending[s.carried..] + [b];
    }
  }

  lemma {:induction false} LoopNew(cfg: Config, blocks: seq<Block>)
    ensures var s := Loop(cfg, blocks); s.carried <= |s.pending| && AllNew(s.emitted) + s.pending[s.carried..] == Visible(blocks)
  {
    if blocks != [] {
      var n := |blocks| - 1;
      LoopNew(cfg, blocks[..n]);
      LoopKeepsOk(cfg, blocks[..n]);
      NextNew(cfg, Loop(cfg, blocks[..n]), blocks[n]);
    }
  }

  /** The visible blocks are those whose text is not blank, in order. */
  lemma {:induction false} VisibleMeans(blocks: seq<Block>) returns (places: seq<nat>)
    ensures Filters(blocks, (b: Block) => !Blank(b.text), Visible(blocks), places)
  {
    hide Blank;
    if blocks == [] {
      places := [];
    } else {
      var n := |blocks| - 1;
      var front := VisibleMeans(blocks[..n]);
      places := if Blank(blocks[n].text) then front else front + [n];
      FiltersNext(blocks, (b: Block) => !Blank(b.text), Visible(blocks[..n]), front);
      assert Visible(blocks[..n]) + [] == Visible(blocks[..n]);
    }
  }

  /** Dropping what each chunk repeats, the chunks' members are the visible input blocks, in order. */
  lemma Lossless(cfg: Config, blocks: seq<Block>)
    ensures AllNew(Emissions(cfg, blocks)) == Visible(blocks)
  {
    LoopNew(cfg, blocks);
    FlushNew(Loop(cfg, blocks));
  }

  // ---------- the pieces ----------

  lemma {:induction false} TextsVisible(bs: seq<Block>, b: Block)
    requires b in bs && !Blank(b.text)
    ensures exists i :: 0 <= i < |Texts(bs)| && Texts(bs)[i] == b.text
  {
    var n := |bs| - 1;
    if b != bs[n] {
      assert bs == bs[..n] + [bs[n]];
      TextsVisible(bs[..n], b);
      var i :| 0 <= i < |Texts(bs[..n])| && Texts(bs[..n])[i] == b.text;
      assert Texts(bs)[i] == b.text;
    } else {
      assert Texts(bs)[|Texts(bs)| - 1] == b.text;
    }
  }

  /** Every merged emission gives exactly one chunk, with visible content. */
  lemma MergedVisible(bs: seq<Block>, order: nat)
    requires bs != [] && forall b :: b in bs ==> !Blank(b.text)
    ensures Texts(bs) != [] && MergedPiece(bs, order).content != ""
  {
    var b := bs[0];
    assert b in bs;
    TextsVisible(bs, b);
    var i :| 0 <= i < |Texts(bs)| && Texts(bs)[i] == b.text;
    var c :| c in b.text && !IsSpace(c);
    JoinMembers(Texts(bs), i, c);
    StripBlank(JoinLines(Texts(bs)));
  }

  predicate Numbered(ps: seq<Piece>, from: nat) {
    forall i | 0 <= i < |ps| :: ps[i].order == from + i && ps[i].content != ""
  }

  lemma {:induction false} SlidesNumbered(b: Block, windows: seq<seq<int>>, order: nat)
    ensures Numbered(SlidePieces(b, windows, order), order)
    ensures forall p :: p in SlidePieces(b, windows, order) ==> !p.skipSummary
  {
    if windows != [] { SlidesNumbered(b, windows[..|windows| - 1], order); }
  }

  /** A chunk is left out of the summaries iff it is a barrier block, which then stands alone. */
  lemma EmissionPieces(cfg: Config, es: seq<Emission>, e: Emission, order: nat)
    requires EmissionOk(cfg, es, e)
    ensures Numbered(PiecesOf(e, cfg, order), order)
    ensures e.Merged? ==> |PiecesOf(e, cfg, order)| == 1
    ensures e.Merged? ==> (PiecesOf(e, cfg, order)[0].skipSummary <==> |e.members| == 1 && Barrier(e.members[0]))
    ensures e.Slid? ==> forall p :: p in PiecesOf(e, cfg, order) ==> !p.skipSummary
  {
    match e
    case Merged(members, _) =>
      MergedVisible(members, order);
      assert members[0] in members;
    case Slid(b) => SlidesNumbered(b, WindowsFrom(Encode(b.text), 0, cfg.size, cfg.Step()), order);
  }

  lemma NumberedAppend(ps: seq<Piece>, qs: seq<Piece>)
    requires Numbered(ps, 0) && Numbered(qs, |ps|)
    ensures Numbered(ps + qs, 0)
  {
  }

  lemma {:induction false} PiecesNumbered(cfg: Config, es: seq<Emission>)
    requires AllOk(cfg, es)
    ensures Numbered(Pieces(es, cfg), 0)
  {
    hide EmissionOk, PiecesOf;
    if es != [] {
      var n := |es| - 1;
      forall i | 0 <= i < n ensures EmissionOk(cfg, es[..n][..i], es[..n][i]) {
        assert es[..n][..i] == es[..i];
      }
      PiecesNumbered(cfg, es[..n]);
      EmissionPieces(cfg, es[..n], es[n], |Pieces(es[..n], cfg)|);
      NumberedAppend(Pieces(es[..n], cfg), PiecesOf(es[n], cfg, |Pieces(es[..n], cfg)|));
    }
  }

  // ---------- sliding windows ----------

  /** All windows without the first `drop` tokens of each. */
  function Tails(ws: seq<seq<int>>, drop: nat): seq<int> {
    if ws == [] then [] else (if drop <= |ws[0]| then ws[0][drop..] else []) + Tails(ws[1..], drop)
  }

  function Rejoin(ws: seq<seq<int>>, drop: nat): seq<int> {
    if ws == [] then [] else ws[0] + Tails(ws[1..], drop)
  }

  /** k == ceil(a / b) */
  predicate IsCeil(k: int, a: int, b: int) {
    (k - 1) * b < a <= k * b
  }

  lemma CeilStep(k: int, a: int, b: int)
    requires b > 0 && (if a <= b then 0 < a && k == 0 else IsCeil(k, a - b, b))
    ensures IsCeil(k + 1, a, b)
  {
    if a > b {
      assert (k + 1) * b == k * b + b && (k - 1) * b == k * b - b;
    }
  }

  /** One window more is needed for every started step beyond the first window. */
  lemma {:induction false} WindowsCount(toks: seq<int>, start: nat, size: nat, step: nat)
    requires 1 <= step <= size && start < |toks|
    ensures var n := |WindowsFrom(toks, start, size, step)| - 1; var beyond := |toks| - start - size;
      if beyond <= 0 then n == 0 else IsCeil(n, beyond, step)
    decreases |toks| - start
  {
    if start + size < |toks| {
      WindowsCount(toks, start + step, size, step);
      CeilStep(|WindowsFrom(toks, start + step, size, step)| - 1, |toks| - start - size, step);
    }
  }

  lemma {:induction false} WindowsLengths(toks: seq<int>, start: nat, size: nat, step: nat)
    requires 1 <= step <= size && start < |toks|
    ensures var ws := WindowsFrom(toks, start, size, step);
      && ws != [] && ws[0] == toks[start..if start + size <= |toks| then start + size else |toks|]
      && forall i | 0 <= i < |ws| :: |ws[i]| <= size && (i > 0 ==> |ws[i]| > size - step)
    decreases |toks| - start
  {
    if start + size < |toks| {
      WindowsLengths(toks, start + step, size, step);
    }
  }

  lemma RejoinStep(w: seq<int>, ws: seq<seq<int>>, drop: nat)
    requires ws != [] && drop <= |ws[0]|
    ensures Rejoin([w] + ws, drop) == w + Rejoin(ws, drop)[drop..]
  {
    assert ([w] + ws)[1..] == ws;
    assert (ws[0] + Tails(ws[1..], drop))[drop..] == ws[0][drop..] + Tails(ws[1..], drop);
  }

  lemma {:induction false} WindowsUndo(toks: seq<int>, start: nat, size: nat, step: nat)
    requires 1 <= step <= size && start < |toks|
    ensures Rejoin(WindowsFrom(toks, start, size, step), size - step) == toks[start..]
    decreases |toks| - start
  {
    hide WindowsFrom, Rejoin, Tails;
    WindowsFirst(toks, start, size, step);
    if start + size >= |toks| {
      RejoinOne(toks[start..|toks|], size - step);
    } else {
      var w, rest := toks[start..start + size], WindowsFrom(toks, start + step, size, step);
      WindowsUndo(toks, start + step, size, step);
      WindowsLengths(toks, start + step, size, step);
      RejoinStep(w, rest, size - step);
      SliceStep(toks, start, size, step);
    }
  }

  lemma WindowsFirst(toks: seq<int>, start: nat, size: nat, step: nat)
    requires step >= 1 && start < |toks|
    ensures WindowsFrom(toks, start, size, step) ==
      if start + size >= |toks| then [toks[start..|toks|]] else [toks[start..start + size]] + WindowsFrom(toks, start + step, size, step)
  {
  }

  lemma RejoinOne(w: seq<int>, drop: nat)
    ensures Rejoin([w], drop) == w
  {
  }

  lemma SliceStep(toks: seq<int>, start: nat, size: nat, step: nat)
    requires step <= size && start + size <= |toks|
    ensures toks[start + step..][size - step..] == toks[start + size..]
    ensures toks[start..] == toks[start..start + size] + toks[start + size..]
  {
  }

  lemma StepRange(cfg: Config)
    requires cfg.size >= 1 && 0.0 <= cfg.overlap <= 1.0
    ensures 1 <= cfg.Step() <= cfg.size
  {
    assert cfg.size as real * (1.0 - cfg.overlap) <= cfg.size as real;
  }

  /** Sliding windows undo: no token is lost, each window adds one, and their number is the expected one. */
  lemma SlidesUndo(cfg: Config, b: Block)
    requires cfg.size >= 1 && 0.0 <= cfg.overlap <= 1.0 && Tok(b) > cfg.size
    ensures var ws := WindowsFrom(Encode(b.text), 0, cfg.size, cfg.Step());
      && Rejoin(ws, cfg.size - cfg.Step()) == Encode(b.text)
      && (forall i | 0 <= i < |ws| :: |ws[i]| <= cfg.size && (i > 0 ==> |ws[i]| > cfg.size - cfg.Step()))
      && IsCeil(|ws| - 1, Tok(b) - cfg.size, cfg.Step())
  {
    StepRange(cfg);
    WindowsUndo(Encode(b.text), 0, cfg.size, cfg.Step());
    WindowsLengths(Encode(b.text), 0, cfg.size, cfg.Step());
    WindowsCount(Encode(b.text), 0, cfg.size, cfg.Step());
    assert Encode(b.text)[0..] == Encode(b.text);
  }

  // ---------- the imperative chunker ----------

  /** chunk_blocks with the variables its nested functions share. */
  class BlockChunker {
    const cfg: Config
    var pieces: seq<Piece>
    var pending: seq<Block>
    var pendingToks: nat
    ghost var emitted: seq<Emission>
    ghost var carried: nat

    constructor (cfg: Config)
      ensures this.cfg == cfg && Valid() && View() == State([], [], 0)
    {
      this.cfg := cfg;
      pieces, pending, pendingToks := [], [], 0;
      emitted, carried := [], 0;
    }

    ghost function View(): State
      reads this
    {
      State(emitted, pending, carried)
    }

    /** The shared variables agree with the emissions so far; `order` in the source is |pieces|. */
    ghost predicate Valid()
      reads this
    {
      LoopOk(cfg, View()) && pieces == Pieces(emitted, cfg) && pendingToks == TokSum(pending)
    }

    /** Appends a chunk unless its content is blank. */
    method Add(content: string, page: int, section: Option<string>, position: Option<seq<(int, Box)>>, skipSummary: bool)
      modifies this`pieces
      ensures pieces == old(pieces) + if Strip(content) == "" then [] else [Piece(Strip(content), page, section, |old(pieces)|, position, skipSummary)]
    {
      var visible := Strip(content);
      if content == "" || visible == "" {
        StripBlank(content);
        return;
      }
      pieces := pieces + [Piece(visible, page, section, |pieces|, position, skipSummary)];
    }

    method Emit(members: seq<Block>)
      requires members != [] && forall b :: b in members ==> !Blank(b.text)
      modifies this`pieces
      ensures pieces == old(pieces) + [MergedPiece(members, |old(pieces)|)]
    {
      var texts := Texts(members);
      MergedVisible(members, |pieces|);
      StripTwice(JoinLines(texts));
      Add(Strip(JoinLines(texts)), members[0].page, members[0].section, Position(members), exists b :: b in members && Barrier(b));
    }

    /** Emits the pending blocks, which stay pending. */
    method EmitPending()
      requires Valid() && pending != []
      modifies this`pieces, this`emitted
      ensures emitted == old(emitted) + [Merged(pending, carried)] && pieces == Pieces(emitted, cfg)
    {
      ghost var e := Merged(pending, carried);
      MergedEmission(pending, carried, cfg, |pieces|);
      PiecesSnoc(emitted, e, cfg);
      hide Pieces, PiecesOf, MergedPiece;
      Emit(pending);
      emitted := emitted + [e];
    }

    /** Emits the pending blocks; with a budget, the longest fitting tail stays pending. */
    method FlushPending(carry: nat)
      requires Valid()
      modifies this
      ensures pieces == Pieces(emitted, cfg) && pendingToks == TokSum(pending)
      ensures View() == State(Flush(old(View())).emitted, Carry(old(pending), carry), |Carry(old(pending), carry)|)
    {
      hide LoopOk, Pieces, GreedyTail, TokSum;
      if pending != [] {
        EmitPending();
      }
      if carry > 0 && pending != [] {
        var tail := TailOf(carry);
        if 0 < |tail| < |pending| {
          pending, pendingToks := tail, TokSum(tail);
          carried := |tail|;
          return;
        }
      }
      assert TokSum([]) == 0 by { NoTokens(); }
      pending, pendingToks, carried := [], 0, 0;
    }

    method TailOf(carry: nat) returns (tail: seq<Block>)
      ensures tail == GreedyTail(pending, carry)
    {
      tail := [];
      var budget: int := carry;
      var j := |pending|;
      assert pending[..j] == pending;
      while j > 0
        invariant 0 <= j <= |pending|
        invariant GreedyTail(pending, carry) == GreedyTail(pending[..j], budget) + tail
      {
        var b := pending[j - 1];
        assert pending[..j][..j - 1] == pending[..j - 1];
        if Tok(b) > budget {
          assert GreedyTail(pending[..j], budget) == [];
          return;
        }
        tail := [b] + tail;
        budget := budget - Tok(b);
        j := j - 1;
      }
    }

    /** `pieces` is `base` and the chunks of the first k windows of `all`. */
    ghost predicate Windowed(b: Block, base: seq<Piece>, all: seq<seq<int>>, k: nat)
      reads this`pieces
    {
      k <= |all| && pieces == base + SlidePieces(b, all[..k], |base|)
    }

    method AddWindow(b: Block, window: seq<int>, ghost base: seq<Piece>, ghost all: seq<seq<int>>, ghost k: nat)
      requires Windowed(b, base, all, k) && k < |all| && all[k] == window
      modifies this`pieces
      ensures Windowed(b, base, all, k + 1)
    {
      assert all[..k + 1][..k] == all[..k];
      ghost var content := Strip(Strip(Decode(window)));
      assert SlidePieces(b, all[..k + 1], |base|) == SlidePieces(b, all[..k], |base|)
        + if content == "" then [] else [Piece(content, b.page, b.section, |pieces|, Position([b]), false)];
      hide SlidePieces, Strip, Position;
      Add(Strip(Decode(window)), b.page, b.section, Position([b]), false);
    }

    /** Adds the chunks of an oversized block, window by window. */
    method EmitWindows(b: Block, toks: seq<int>, size: nat, step: nat)
      requires step >= 1
      modifies this`pieces
      ensures Windowed(b, old(pieces), WindowsFrom(toks, 0, size, step), |WindowsFrom(toks, 0, size, step)|)
    {
      hide WindowsFrom, SlidePieces;
      ghost var all, base := WindowsFrom(toks, 0, size, step), pieces;
      ghost var k: nat := 0;
      var start := 0;
      NoPieces(b, |base|);
      assert Windowed(b, base, all, 0);
      hide Windowed;
      NoWindow(toks, size, step);
      while start < |toks|
        invariant k <= |all| && all[k..] == WindowsFrom(toks, start, size, step) && Windowed(b, base, all, k)
        decreases |toks| - start
      {
        WindowAt(toks, start, size, step, all, k);
        AddWindow(b, toks[start..if start + size <= |toks| then start + size else |toks|], base, all, k);
        k := k + 1;
        if start + size >= |toks| { return; }
        start := start + step;
      }
    }

    method EmitSlides(b: Block)
      requires pieces == Pieces(emitted, cfg)
      modifies this`pieces, this`emitted
      ensures emitted == old(emitted) + [Slid(b)] && pieces == Pieces(emitted, cfg)
    {
      PiecesSnoc(emitted, Slid(b), cfg);
      hide Pieces, SlidePieces, WindowsFrom;
      EmitWindows(b, Encode(b.text), cfg.size, cfg.Step());
      assert var all := WindowsFrom(Encode(b.text), 0, cfg.size, cfg.Step()); all[..|all|] == all;
      emitted := emitted + [Slid(b)];
    }

    /** A barrier block becomes a chunk of its own. */
    method TakeBarrier(b: Block)
      requires Valid() && !Blank(b.text) && Barrier(b)
      modifies this
      ensures Valid() && View() == Next(cfg, old(View()), b)
    {
      hide LoopOk, Pieces, PiecesOf, Blank, Barrier, GreedyTail, MergedPiece, Tok;
      NextOk(cfg, View(), b);
      FlushPending(0);
      assert b in [b];
      Emit([b]);
      MergedEmission([b], 0, cfg, |Pieces(emitted, cfg)|);
      PiecesSnoc(emitted, Merged([b], 0), cfg);
      emitted := emitted + [Merged([b], 0)];
    }

    /** A prose block joins the pending ones, or what is carried over when they are full. */
    method TakeProse(b: Block)
      requires Valid() && !Blank(b.text) && !Barrier(b) && b.kind != TitleBlock && Tok(b) <= cfg.size
      modifies this
      ensures Valid() && View() == Next(cfg, old(View()), b)
    {
      hide LoopOk, Pieces, Carry, Blank, Barrier, Tok, TokSum;
      NextOk(cfg, View(), b);
      if pending != [] && pendingToks + Tok(b) > cfg.size {
        FlushPending(cfg.OverlapTokens());
      }
      TokSumSnoc(pending, b);
      pending, pendingToks := pending + [b], pendingToks + Tok(b);
    }

    /** One round of the block loop. */
    method Take(b: Block)
      requires Valid()
      modifies this
      ensures Valid() && View() == Next(cfg, old(View()), b)
    {
      hide LoopOk, Pieces, Blank, Barrier, GreedyTail, Tok;
      if Blank(b.text) { return; }
      if Barrier(b) {
        TakeBarrier(b);
      } else if b.kind == TitleBlock {
        NextOk(cfg, View(), b);
        FlushPending(0);
        assert [b][..0] == [];
        pending, pendingToks := [b], Tok(b);
      } else if Tok(b) > cfg.size {
        NextOk(cfg, View(), b);
        FlushPending(0);
        EmitSlides(b);
      } else {
        TakeProse(b);
      }
    }

    method ChunkBlocks(blocks: seq<Block>) returns (result: seq<Piece>)
      requires Valid() && View() == State([], [], 0)
      modifies this
      ensures result == Pieces(Emissions(cfg, blocks), cfg)
    {
      for i := 0 to |blocks|
        invariant Valid() && View() == Loop(cfg, blocks[..i])
      {
        assert blocks[..i + 1][..i] == blocks[..i];
        Take(blocks[i]);
      }
      assert blocks[..|blocks|] == blocks;
      FlushPending(0);
      result := pieces;
    }
  }

  lemma PiecesSnoc(es: seq<Emission>, e: Emission, cfg: Config)
    ensures Pieces(es + [e], cfg) == Pieces(es, cfg) + PiecesOf(e, cfg, |Pieces(es, cfg)|)
  {
    assert (es + [e])[..|es|] == es;
  }

  lemma WindowAt(toks: seq<int>, start: nat, size: nat, step: nat, all: seq<seq<int>>, k: nat)
    requires step >= 1 && start < |toks| && k <= |all| && all[k..] == WindowsFrom(toks, start, size, step)
    ensures k < |all| && all[k] == toks[start..if start + size <= |toks| then start + size else |toks|]
    ensures if start + size >= |toks| then k + 1 == |all| else all[k + 1..] == WindowsFrom(toks, start + step, size, step)
  {
    assert |all| - k == |WindowsFrom(toks, start, size, step)| >= 1;
    assert all[k] == all[k..][0] && all[k + 1..] == all[k..][1..];
  }

  lemma NoWindow(toks: seq<int>, size: nat, step: nat)
    requires step >= 1
    ensures forall start: nat :: start >= |toks| ==> WindowsFrom(toks, start, size, step) == []
  {
  }

  lemma NoPieces(b: Block, order: nat)
    ensures SlidePieces(b, [], order) == []
  {
  }

  lemma NoTokens()
    ensures TokSum([]) == 0
  {
  }

  lemma MergedEmission(members: seq<Block>, carried: nat, cfg: Config, order: nat)
    requires members != [] && forall b :: b in members ==> !Blank(b.text)
    ensures PiecesOf(Merged(members, carried), cfg, order) == [MergedPiece(members, order)]
  {
    MergedVisible(members, order);
  }
}
