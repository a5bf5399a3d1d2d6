/** What the chunks of chunk_blocks hold, read off the input blocks: the text of an oversized block window by window,
    the members of a merged chunk, and why a chunk ends where it ends. */
module Packing {
  import opened Schema
  import opened Text
  import opened Parser
  import opened Chunker

  // ---------- an oversized block ----------

  /** `size` tokens from `at` on, or as many as there are. */
  function CutAt(toks: seq<int>, at: nat, size: nat): seq<int>
    requires at <= |toks|
  {
    toks[at..if at + size <= |toks| then at + size else |toks|]
  }

  /** n windows, one every `step` tokens, of which only the last reaches the end, or has none to follow. */
  predicate Reaches(toks: seq<int>, size: nat, step: nat, n: nat) {
    && (n == 0 <==> toks == [])
    && (n > 0 ==> (n - 1) * step < |toks| && (|toks| <= (n - 1) * step + size || |toks| <= n * step))
    && (n > 1 ==> (n - 2) * step + size < |toks|)
  }

  lemma {:induction false} WindowSlice(toks: seq<int>, start: nat, size: nat, step: nat, n: nat)
    requires step >= 1 && n < |WindowsFrom(toks, start, size, step)|
    ensures start + n * step < |toks| && WindowsFrom(toks, start, size, step)[n] == CutAt(toks, start + n * step, size)
    ensures if n < |WindowsFrom(toks, start, size, step)| - 1 then start + n * step + size < |toks|
            else |toks| <= start + n * step + size || |toks| <= start + n * step + step
    decreases n
  {
    if n > 0 {
      WindowSlice(toks, start + step, size, step, n - 1);
      assert start + step + (n - 1) * step == start + n * step;
    }
  }

  lemma WindowsReach(toks: seq<int>, size: nat, step: nat)
    requires step >= 1
    ensures Reaches(toks, size, step, |WindowsFrom(toks, 0, size, step)|)
  {
    hide WindowsFrom, CutAt;
    var n := |WindowsFrom(toks, 0, size, step)|;
    if n > 0 { WindowSlice(toks, 0, size, step, n - 1); }
    if n > 1 { WindowSlice(toks, 0, size, step, n - 2); }
    if n > 0 { OneMore(n, step); }
    NoWindows(toks, size, step);
  }

  lemma OneMore(n: nat, step: nat)
    requires n > 0
    ensures (n - 1) * step + step == n * step
  {
  }

  lemma NoWindows(toks: seq<int>, size: nat, step: nat)
    requires step >= 1
    ensures WindowsFrom(toks, 0, size, step) == [] <==> toks == []
  {
  }

  /** The chunk of a window: all of its tokens decoded and stripped, at the block's page, section and place. */
  function WindowPiece(b: Block, window: seq<int>, order: nat): Piece {
    Piece(Strip(Decode(window)), b.page, b.section, order, if b.bbox.Some? then Some([(b.page, b.bbox.value)]) else None, false)
  }

  /** One chunk for each of the windows that decodes to something visible, in order. */
  ghost predicate Covers(b: Block, windows: seq<seq<int>>, ps: seq<Piece>, order: nat, places: seq<nat>) {
    && |places| == |ps| && (forall i, j | 0 <= i < j < |places| :: places[i] < places[j])
    && (forall j | 0 <= j < |ps| :: places[j] < |windows| && ps[j] == WindowPiece(b, windows[places[j]], order + j))
    && (forall w: nat | w < |windows| :: w in places <==> !Blank(Decode(windows[w])))
  }

  lemma StripsOnce(s: string)
    ensures Strip(Strip(s)) == Strip(s) && (Strip(s) == "" <==> Blank(s))
  {
    StripTwice(s);
    StripBlank(s);
  }

  lemma {:induction false} SlidesPlaced(b: Block, windows: seq<seq<int>>, order: nat) returns (places: seq<nat>)
    ensures Covers(b, windows, SlidePieces(b, windows, order), order, places)
  {
    hide Strip, Blank, SlidePieces, Covers, WindowPiece;
    if windows == [] {
      places := [];
      NothingCovered(b, order);
    } else {
      var n := |windows| - 1;
      var front := SlidesPlaced(b, windows[..n], order);
      SlidesSnoc(b, windows, order);
      places := if Blank(Decode(windows[n])) then front else front + [n];
      CoversNext(b, windows, SlidePieces(b, windows[..n], order), order, front);
      assert SlidePieces(b, windows[..n], order) + [] == SlidePieces(b, windows[..n], order);
    }
  }

  lemma NothingCovered(b: Block, order: nat)
    ensures Covers(b, [], SlidePieces(b, [], order), order, [])
  {
  }

  lemma SlidesSnoc(b: Block, windows: seq<seq<int>>, order: nat)
    requires windows != []
    ensures var n := |windows| - 1; var front := SlidePieces(b, windows[..n], order);
      SlidePieces(b, windows, order) == front + if Blank(Decode(windows[n])) then [] else [WindowPiece(b, windows[n], order + |front|)]
  {
    hide Strip, Blank, Position;
    StripsOnce(Decode(windows[|windows| - 1]));
    OwnPosition(b);
  }

  lemma OwnPosition(b: Block)
    ensures Position([b]) == if b.bbox.Some? then Some([(b.page, b.bbox.value)]) else None
  {
    assert [b][..|[b]| - 1] == [] && PosOf([]) == [];
    assert PosOf([b]) == if b.bbox.Some? then [(b.page, b.bbox.value)] else [];
  }

  lemma CoversNext(b: Block, windows: seq<seq<int>>, ps: seq<Piece>, order: nat, front: seq<nat>)
    requires windows != [] && Covers(b, windows[..|windows| - 1], ps, order, front)
    ensures var n := |windows| - 1;
      if Blank(Decode(windows[n])) then Covers(b, windows, ps, order, front)
      else Covers(b, windows, ps + [WindowPiece(b, windows[n], order + |ps|)], order, front + [n])
  {
    hide Blank, WindowPiece;
    var n := |windows| - 1;
    forall w: nat | w < n ensures windows[..n][w] == windows[w] { }
    forall j | 0 <= j < |front| ensures front[j] < n && windows[..n][front[j]] == windows[front[j]] { }
    assert n !in front;
  }

  /** The chunks of an oversized block: the tokens are cut every `step` into windows of `size`, up to the first that
      reaches the end, and each window whose text is visible gives one chunk with the whole of its text, stripped. */
  lemma SlidesHold(cfg: Config, b: Block, order: nat) returns (n: nat, places: seq<nat>)
    ensures var toks, ps := Encode(b.text), PiecesOf(Slid(b), cfg, order);
      && Reaches(toks, cfg.size, cfg.Step(), n)
      && |places| == |ps| && (forall i, j | 0 <= i < j < |places| :: places[i] < places[j])
      && (forall j | 0 <= j < |ps| :: places[j] < n && Starts(toks, cfg, places[j])
            && ps[j] == WindowPiece(b, CutAt(toks, places[j] * cfg.Step(), cfg.size), order + j))
      && (forall w: nat | w < n :: Starts(toks, cfg, w) && (w in places <==> !Blank(Decode(CutAt(toks, w * cfg.Step(), cfg.size)))))
  {
    hide WindowsFrom, SlidePieces, CutAt, Blank, WindowPiece, Reaches;
    var toks, size, step := Encode(b.text), cfg.size, cfg.Step();
    var windows := WindowsFrom(toks, 0, size, step);
    n := |windows|;
    WindowsReach(toks, size, step);
    places := SlidesPlaced(b, windows, order);
    forall w: nat | w < n ensures Starts(toks, cfg, w) && windows[w] == CutAt(toks, w * step, size) {
      WindowSlice(toks, 0, size, step, w);
    }
  }

  predicate Starts(toks: seq<int>, cfg: Config, w: nat) {
    w * cfg.Step() < |toks|
  }

  // ---------- nothing of its text is lost ----------

  /** The tokenizer decodes concatenations to concatenations. */
  ghost predicate Concatenates() {
    forall x: seq<int>, y: seq<int> :: Decode(x + y) == Decode(x) + Decode(y)
  }

  /** How much of the text the first k tokens decode to. */
  function Offset(toks: seq<int>, k: nat): nat
    requires k <= |toks|
  {
    |Decode(toks[..k])|
  }

  lemma SliceText(toks: seq<int>, lo: nat, hi: nat)
    requires Concatenates() && lo <= hi <= |toks|
    ensures Offset(toks, lo) <= Offset(toks, hi) <= |Decode(toks)|
    ensures Decode(toks[lo..hi]) == Decode(toks)[Offset(toks, lo)..Offset(toks, hi)]
  {
    var a, b, c := Decode(toks[..lo]), Decode(toks[lo..hi]), Decode(toks[hi..]);
    assert toks[..hi] == toks[..lo] + toks[lo..hi] && toks == toks[..hi] + toks[hi..];
    assert Decode(toks[..hi]) == a + b && Decode(toks) == a + b + c;
  }

  lemma Offsets(toks: seq<int>)
    requires Concatenates()
    ensures Offset(toks, 0) == 0 && Offset(toks, |toks|) == |Decode(toks)|
  {
    assert toks[..0] + toks[..0] == toks[..0] && toks[..|toks|] == toks;
    assert Decode(toks[..0] + toks[..0]) == Decode(toks[..0]) + Decode(toks[..0]);
  }

  /** Where a window's text starts and ends. */
  function From(toks: seq<int>, cfg: Config, w: nat): nat
    requires Starts(toks, cfg, w)
  {
    Offset(toks, w * cfg.Step())
  }

  function To(toks: seq<int>, cfg: Config, w: nat): nat
    requires Starts(toks, cfg, w)
  {
    var at := w * cfg.Step();
    Offset(toks, if at + cfg.size <= |toks| then at + cfg.size else |toks|)
  }

  lemma WindowText(toks: seq<int>, cfg: Config, w: nat)
    requires Concatenates() && Starts(toks, cfg, w)
    ensures From(toks, cfg, w) <= To(toks, cfg, w) <= |Decode(toks)|
    ensures Decode(CutAt(toks, w * cfg.Step(), cfg.size)) == Decode(toks)[From(toks, cfg, w)..To(toks, cfg, w)]
  {
    var at := w * cfg.Step();
    SliceText(toks, at, if at + cfg.size <= |toks| then at + cfg.size else |toks|);
  }

  /** Every place of the text lies in some window, when windows are at least as long as the step. */
  lemma {:induction false} InWindow(toks: seq<int>, cfg: Config, n: nat, p: nat, k: nat) returns (w: nat)
    requires Concatenates() && Reaches(toks, cfg.size, cfg.Step(), n) && cfg.Step() <= cfg.size && p < |Decode(toks)|
    requires k < n && (forall v: nat | v < n :: Starts(toks, cfg, v)) && From(toks, cfg, k) <= p
    ensures w < n && From(toks, cfg, w) <= p < To(toks, cfg, w)
    decreases n - k
  {
    var step := cfg.Step();
    if p < To(toks, cfg, k) {
      w := k;
    } else if k == n - 1 {
      Offsets(toks);
      assert false;
    } else {
      assert Starts(toks, cfg, k + 1);
      NextBegins(toks, cfg, n, k);
      w := InWindow(toks, cfg, n, p, k + 1);
    }
  }

  /** A window that is not the last ends behind the start of the next. */
  lemma NextBegins(toks: seq<int>, cfg: Config, n: nat, k: nat)
    requires Concatenates() && Reaches(toks, cfg.size, cfg.Step(), n) && cfg.Step() <= cfg.size
    requires k < n - 1 && Starts(toks, cfg, k) && Starts(toks, cfg, k + 1)
    ensures From(toks, cfg, k + 1) <= To(toks, cfg, k)
  {
    var step := cfg.Step();
    assert (k + 1) * step == k * step + step;
    SliceText(toks, (k + 1) * step, if k * step + cfg.size <= |toks| then k * step + cfg.size else |toks|);
  }

  /** A span of the text that a chunk holds. */
  datatype Span = Span(lo: nat, hi: nat)

  ghost predicate Spans(text: string, ps: seq<Piece>, spans: seq<Span>) {
    |spans| == |ps| && forall j | 0 <= j < |ps| ::
      spans[j].lo <= spans[j].hi <= |text| && ps[j].content == text[spans[j].lo..spans[j].hi]
  }

  /** If the tokenizer decodes what it encodes, piece by piece, then every chunk of an oversized block is a stretch of the
      block's text, and together they hold all of its visible characters. */
  lemma SlidesCover(cfg: Config, b: Block, order: nat) returns (spans: seq<Span>)
    requires cfg.size >= 1 && 0.0 <= cfg.overlap <= 1.0
    requires Decode(Encode(b.text)) == b.text && Concatenates()
    ensures Spans(b.text, PiecesOf(Slid(b), cfg, order), spans)
    ensures forall p | 0 <= p < |b.text| && !IsSpace(b.text[p]) :: exists j | 0 <= j < |spans| :: spans[j].lo <= p < spans[j].hi
  {
    hide PiecesOf, Concatenates, IsSpace, Reaches, WindowPiece, CutAt, Blank;
    var toks, ps := Encode(b.text), PiecesOf(Slid(b), cfg, order);
    var n, places := SlidesHold(cfg, b, order);
    StepRange(cfg);
    spans := AllSpans(b, toks, cfg, places, ps, order);
    hide SpanOf;
    SpansText(b.text, toks, cfg, places, ps, spans);
    forall p | 0 <= p < |b.text| && !IsSpace(b.text[p]) ensures exists j | 0 <= j < |spans| :: spans[j].lo <= p < spans[j].hi {
      var w := VisibleWindow(b.text, toks, cfg, n, p);
      assert w in places;
      var j: nat :| j < |places| && places[j] == w;
      SpanHolds(b.text, toks, cfg, w, ps[j], spans[j], p);
    }
  }

  /** The spans of the first pieces, one by one. */
  ghost predicate SpansOf(text: string, toks: seq<int>, cfg: Config, places: seq<nat>, ps: seq<Piece>, spans: seq<Span>) {
    |places| == |ps| == |spans| && forall j | 0 <= j < |ps| :: SpanOf(text, toks, cfg, places[j], ps[j], spans[j])
  }

  lemma {:induction false} AllSpans(b: Block, toks: seq<int>, cfg: Config, places: seq<nat>, ps: seq<Piece>, order: nat) returns (spans: seq<Span>)
    requires Concatenates() && Decode(toks) == b.text && |places| == |ps|
    requires forall j | 0 <= j < |ps| :: Starts(toks, cfg, places[j]) && ps[j] == WindowPiece(b, CutAt(toks, places[j] * cfg.Step(), cfg.size), order + j)
    ensures SpansOf(b.text, toks, cfg, places, ps, spans)
  {
    hide Concatenates, WindowPiece, CutAt, SpanOf;
    if ps == [] {
      spans := [];
    } else {
      var n := |ps| - 1;
      var front := AllSpans(b, toks, cfg, places[..n], ps[..n], order);
      var span := PieceSpan(b, toks, cfg, places[n], ps[n], order + n);
      spans := front + [span];
    }
  }

  lemma SpansText(text: string, toks: seq<int>, cfg: Config, places: seq<nat>, ps: seq<Piece>, spans: seq<Span>)
    requires SpansOf(text, toks, cfg, places, ps, spans)
    ensures Spans(text, ps, spans)
  {
  }

  lemma SpanHolds(text: string, toks: seq<int>, cfg: Config, w: nat, piece: Piece, span: Span, p: nat)
    requires SpanOf(text, toks, cfg, w, piece, span) && p < |text| && !IsSpace(text[p])
    requires Starts(toks, cfg, w) && From(toks, cfg, w) <= p < To(toks, cfg, w)
    ensures span.lo <= p < span.hi
  {
    hide IsSpace, From, To;
  }

  /** The window that holds a visible character decodes to something visible. */
  lemma VisibleWindow(text: string, toks: seq<int>, cfg: Config, n: nat, p: nat) returns (w: nat)
    requires Concatenates() && Decode(toks) == text && Reaches(toks, cfg.size, cfg.Step(), n) && cfg.Step() <= cfg.size
    requires (forall v: nat | v < n :: Starts(toks, cfg, v)) && p < |text| && !IsSpace(text[p])
    ensures w < n && Starts(toks, cfg, w) && From(toks, cfg, w) <= p < To(toks, cfg, w) && !Blank(Decode(CutAt(toks, w * cfg.Step(), cfg.size)))
  {
    Offsets(toks);
    NoText();
    assert n > 0 && From(toks, cfg, 0) == 0;
    hide IsSpace, Reaches, CutAt;
    w := InWindow(toks, cfg, n, p, 0);
    WindowText(toks, cfg, w);
    VisibleAt(text, From(toks, cfg, w), To(toks, cfg, w), p);
  }

  lemma NoText()
    requires Concatenates()
    ensures Decode([]) == ""
  {
    assert Decode([] + []) == Decode([]) + Decode([]);
    var none: seq<int> := [];
    assert none + none == none;
  }

  lemma VisibleAt(text: string, lo: nat, hi: nat, p: nat)
    requires lo <= p < hi <= |text| && !IsSpace(text[p])
    ensures !Blank(text[lo..hi])
  {
    assert text[lo..hi][p - lo] == text[p];
  }

  /** The span holds the piece, and all visible characters of its window. */
  ghost predicate SpanOf(text: string, toks: seq<int>, cfg: Config, w: nat, p: Piece, span: Span) {
    && Starts(toks, cfg, w) && span.lo <= span.hi <= |text| && p.content == text[span.lo..span.hi]
    && forall q | From(toks, cfg, w) <= q < To(toks, cfg, w) && q < |text| && !IsSpace(text[q]) :: span.lo <= q < span.hi
  }

  lemma PieceSpan(b: Block, toks: seq<int>, cfg: Config, w: nat, p: Piece, order: nat) returns (span: Span)
    requires Concatenates() && Decode(toks) == b.text && Starts(toks, cfg, w)
    requires p == WindowPiece(b, CutAt(toks, w * cfg.Step(), cfg.size), order)
    ensures SpanOf(b.text, toks, cfg, w, p, span)
  {
    WindowText(toks, cfg, w);
    var from, to := From(toks, cfg, w), To(toks, cfg, w);
    var text := b.text[from..to];
    var lo, hi := StripAt(text);
    hide Strip, IsSpace, Concatenates, CutAt, From, To;
    span := Span(from + lo, from + hi);
    assert text[lo..hi] == b.text[from + lo..from + hi];
    forall q | from <= q < to && !IsSpace(b.text[q]) ensures span.lo <= q < span.hi {
      assert text[q - from] == b.text[q];
      Inside(text, lo, hi, q - from);
    }
  }

  lemma Inside(text: string, lo: nat, hi: nat, p: nat)
    requires lo <= hi <= |text| && p < |text| && Blank(text[..lo]) && Blank(text[hi..]) && !IsSpace(text[p])
    ensures lo <= p < hi
  {
    hide IsSpace, Blank;
    if p < lo { BlankBefore(text, lo, p); }
    if p >= hi { BlankBehind(text, hi, p); }
  }

  // ---------- a merged chunk ----------

  /** The places of the members that carry a box. */
  ghost predicate Boxes(members: seq<Block>, position: seq<(int, Box)>, places: seq<nat>) {
    && |places| == |position| && (forall i, j | 0 <= i < j < |places| :: places[i] < places[j])
    && (forall i | 0 <= i < |places| ::
          places[i] < |members| && members[places[i]].bbox.Some? && position[i] == (members[places[i]].page, members[places[i]].bbox.value))
    && (forall m: nat | m < |members| :: m in places <==> members[m].bbox.Some?)
  }

  lemma {:induction false} PositionMeans(members: seq<Block>) returns (places: seq<nat>)
    ensures Boxes(members, PosOf(members), places)
  {
    if members == [] {
      places := [];
    } else {
      var n := |members| - 1;
      var front := PositionMeans(members[..n]);
      places := if members[n].bbox.Some? then front + [n] else front;
      BoxesNext(members, PosOf(members[..n]), front);
    }
  }

  lemma BoxesNext(members: seq<Block>, position: seq<(int, Box)>, front: seq<nat>)
    requires members != [] && Boxes(members[..|members| - 1], position, front)
    ensures var n := |members| - 1;
      if members[n].bbox.Some? then Boxes(members, position + [(members[n].page, members[n].bbox.value)], front + [n])
      else Boxes(members, position, front)
  {
    var n := |members| - 1;
    forall m: nat | m < n ensures members[..n][m] == members[m] { }
    forall i | 0 <= i < |front| ensures front[i] < n && members[..n][front[i]] == members[front[i]] { }
    assert n !in front;
  }

  lemma {:induction false} AllTexts(members: seq<Block>)
    requires forall b :: b in members ==> !Blank(b.text)
    ensures |Texts(members)| == |members| && forall i | 0 <= i < |members| :: Texts(members)[i] == members[i].text
  {
    if members != [] {
      var n := |members| - 1;
      assert members[n] in members;
      AllTexts(members[..n]);
    }
  }

  /** The chunk of a merged emission: its members' texts line by line, stripped, with the page and section of the first
      member and the boxes of those that have one. */
  lemma MergedMeans(cfg: Config, es: seq<Emission>, e: Emission, order: nat) returns (texts: seq<string>, places: seq<nat>)
    requires EmissionOk(cfg, es, e) && e.Merged?
    ensures |texts| == |e.members| && forall i | 0 <= i < |texts| :: texts[i] == e.members[i].text
    ensures |PiecesOf(e, cfg, order)| == 1
    ensures var p := PiecesOf(e, cfg, order)[0];
      && p.content == Strip(JoinLines(texts)) && p.page == e.members[0].page && p.section == e.members[0].section && p.order == order
      && (p.position.None? <==> forall i | 0 <= i < |e.members| :: e.members[i].bbox.None?)
      && (p.position.Some? ==> Boxes(e.members, p.position.value, places))
  {
    texts := Texts(e.members);
    AllTexts(e.members);
    places := PositionMeans(e.members);
    NoBoxes(e.members, PosOf(e.members), places);
    MergedEmission(e.members, e.carried, cfg, order);
    hide Texts, PosOf, Strip, JoinLines, Blank, Boxes;
  }

  lemma NoBoxes(members: seq<Block>, position: seq<(int, Box)>, places: seq<nat>)
    requires Boxes(members, position, places)
    ensures position == [] <==> forall i | 0 <= i < |members| :: members[i].bbox.None?
  {
    if position != [] { assert members[places[0]].bbox.Some?; }
    forall i: nat | i < |members| && members[i].bbox.Some? ensures position != [] { assert i in places; }
  }

  // ---------- why a chunk ends where it ends ----------

  predicate Prose(b: Block) {
    !Barrier(b) && b.kind != TitleBlock
  }

  /** A chunk that starts with a prose block, behind a merged chunk of prose, starts there because the block did not fit
      any more; and it repeats the longest end of that chunk that fits the overlap, or nothing if all of it fits. */
  ghost predicate Packed(cfg: Config, es: seq<Emission>, e: Emission) {
    e.Merged? && es != [] && es[|es| - 1].Merged? && e.carried < |e.members| && Prose(e.members[e.carried])
    && (forall b :: b in es[|es| - 1].members ==> !Barrier(b)) ==>
      var last := es[|es| - 1].members;
      && TokSum(last) + Tok(e.members[e.carried]) > cfg.size
      && Repeats(cfg, last, e.carried)
  }

  ghost predicate Repeats(cfg: Config, last: seq<Block>, carried: nat) {
    if TokSum(last) <= cfg.OverlapTokens() || cfg.OverlapTokens() == 0 then carried == 0
    else carried < |last| && TokSum(last[|last| - carried..]) <= cfg.OverlapTokens() < TokSum(last[|last| - carried - 1..])
  }

  ghost predicate AllPacked(cfg: Config, es: seq<Emission>) {
    forall i | 0 <= i < |es| :: Packed(cfg, es[..i], es[i])
  }

  /** What the loop knows: a pending chunk is packed behind the emissions, and nothing is pending only behind an emission
      that no chunk of prose could have joined. */
  ghost predicate LoopPacked(cfg: Config, s: State) {
    && AllPacked(cfg, s.emitted)
    && (s.pending != [] ==> Packed(cfg, s.emitted, Merged(s.pending, s.carried)))
    && (s.pending == [] && s.emitted != [] && s.emitted[|s.emitted| - 1].Merged? ==>
          exists b :: b in s.emitted[|s.emitted| - 1].members && Barrier(b))
  }

  lemma PackedSnoc(cfg: Config, es: seq<Emission>, e: Emission)
    requires AllPacked(cfg, es) && Packed(cfg, es, e)
    ensures AllPacked(cfg, es + [e])
  {
    hide Packed;
    forall i | 0 <= i < |es + [e]| ensures Packed(cfg, (es + [e])[..i], (es + [e])[i]) {
      if i < |es| {
        assert (es + [e])[..i] == es[..i];
      } else {
        assert (es + [e])[..i] == es;
      }
    }
  }

  lemma FlushPacked(cfg: Config, s: State)
    requires LoopPacked(cfg, s)
    ensures AllPacked(cfg, Flush(s).emitted)
  {
    if s.pending != [] { PackedSnoc(cfg, s.emitted, Merged(s.pending, s.carried)); }
  }

  lemma {:induction false} SuffixSum(bs: seq<Block>, k: nat)
    requires k <= |bs|
    ensures TokSum(bs[k..]) + TokSum(bs[..k]) == TokSum(bs)
  {
    if k < |bs| {
      var n := |bs| - 1;
      SuffixSum(bs[..n], k);
      assert bs[..n][k..] + [bs[n]] == bs[k..] && bs[..n][..k] == bs[..k];
      TokSumSnoc(bs[..n][k..], bs[n]);
    } else {
      assert bs[k..] == [] && bs[..k] == bs;
    }
  }

  /** The greedy tail is the longest that fits. */
  lemma {:induction false} TailLongest(bs: seq<Block>, budget: nat)
    ensures Longest(bs, budget, GreedyTail(bs, budget))
  {
    if bs != [] {
      var n := |bs| - 1;
      if Tok(bs[n]) <= budget {
        TailLongest(bs[..n], budget - Tok(bs[n]));
        TailLonger(bs, budget, GreedyTail(bs[..n], budget - Tok(bs[n])));
      } else {
        assert bs[|bs| - 1..] == [] + [bs[n]];
        TokSumSnoc([], bs[n]);
      }
    }
  }

  /** `tail` is the longest end of the blocks that fits. */
  ghost predicate Longest(bs: seq<Block>, budget: int, tail: seq<Block>) {
    && |tail| <= |bs| && tail == bs[|bs| - |tail|..] && TokSum(tail) <= budget
    && (|tail| < |bs| ==> TokSum(bs[|bs| - |tail| - 1..]) > budget)
  }

  lemma TailLonger(bs: seq<Block>, budget: nat, u: seq<Block>)
    requires bs != [] && Longest(bs[..|bs| - 1], budget - Tok(bs[|bs| - 1]), u)
    ensures Longest(bs, budget, u + [bs[|bs| - 1]])
  {
    var n := |bs| - 1;
    hide TokSum, Tok;
    TokSumSnoc(u, bs[n]);
    assert u + [bs[n]] == bs[|bs| - |u| - 1..];
    if |u| < n {
      var longer := bs[..n][n - |u| - 1..];
      assert longer + [bs[n]] == bs[n - |u| - 1..];
      TokSumSnoc(longer, bs[n]);
    }
  }

  lemma CarryRepeats(cfg: Config, last: seq<Block>)
    requires last != []
    ensures Repeats(cfg, last, |Carry(last, cfg.OverlapTokens())|)
  {
    var budget := cfg.OverlapTokens();
    var t := GreedyTail(last, budget);
    TailLongest(last, budget);
    hide GreedyTail, TokSum;
    if |t| == |last| {
      assert t == last;
    } else {
      SuffixMore(last, |last| - |t| - 1);
    }
  }

  lemma SuffixMore(bs: seq<Block>, k: nat)
    requires k <= |bs|
    ensures TokSum(bs[k..]) <= TokSum(bs)
  {
    SuffixSum(bs, k);
  }

  lemma OverflowPacked(cfg: Config, s: State, b: Block)
    requires LoopPacked(cfg, s) && s.pending != [] && TokSum(s.pending) + Tok(b) > cfg.size
    ensures var tail := Carry(s.pending, cfg.OverlapTokens()); Packed(cfg, Flush(s).emitted, Merged(tail + [b], |tail|))
  {
    CarryRepeats(cfg, s.pending);
    hide Carry, TokSum, Repeats;
  }

  lemma NextPacked(cfg: Config, s: State, b: Block)
    requires LoopOk(cfg, s) && LoopPacked(cfg, s)
    ensures LoopPacked(cfg, Next(cfg, s, b))
  {
    FlushPacked(cfg, s);
    hide Carry, TokSum, Repeats, Blank, EmissionOk, AllOk, AllPacked;
    var front := Flush(s).emitted;
    if Blank(b.text) {
    } else if Barrier(b) {
      assert b in [b];
      PackedSnoc(cfg, front, Merged([b], 0));
    } else if b.kind == TitleBlock {
    } else if Tok(b) > cfg.size {
      PackedSnoc(cfg, front, Slid(b));
    } else if s.pending != [] && TokSum(s.pending) + Tok(b) > cfg.size {
      OverflowPacked(cfg, s, b);
    } else {
      AppendPacked(cfg, s, b);
    }
  }

  lemma AppendPacked(cfg: Config, s: State, b: Block)
    requires LoopOk(cfg, s) && LoopPacked(cfg, s)
    ensures Packed(cfg, s.emitted, Merged(s.pending + [b], s.carried))
  {
    hide TokSum, Repeats, AllOk, AllPacked;
  }

  lemma {:induction false} LoopKeepsPacked(cfg: Config, blocks: seq<Block>)
    ensures LoopPacked(cfg, Loop(cfg, blocks))
  {
    if blocks != [] {
      var n := |blocks| - 1;
      LoopKeepsPacked(cfg, blocks[..n]);
      LoopKeepsOk(cfg, blocks[..n]);
      hide LoopOk, LoopPacked, Next;
      NextPacked(cfg, Loop(cfg, blocks[..n]), blocks[n]);
    }
  }

  /** Chunks are as full as can be: prose is never put into a new chunk while it fits, and the overlap is as long as it
      may be. */
  lemma ChunksPacked(cfg: Config, blocks: seq<Block>)
    ensures AllPacked(cfg, Emissions(cfg, blocks))
  {
    LoopKeepsPacked(cfg, blocks);
    FlushPacked(cfg, Loop(cfg, blocks));
  }

  /** The step between windows and the overlap, from the settings: at most the stated share of the size, and less than
      one token short of it, except that a step is at least one token. */
  lemma StepMeans(cfg: Config)
    requires 0.0 <= cfg.overlap <= 1.0
    ensures var s, x := cfg.Step() as real, cfg.size as real * (1.0 - cfg.overlap); if x < 1.0 then s == 1.0 else s <= x < s + 1.0
    ensures var o, x := cfg.OverlapTokens() as real, cfg.size as real * cfg.overlap; o <= x < o + 1.0
  {
    NotNegative(cfg.size as real, cfg.overlap);
    FloorMeans(cfg.size as real * cfg.overlap);
    FloorMeans(cfg.size as real * (1.0 - cfg.overlap));
  }

  lemma NotNegative(x: real, y: real)
    requires x >= 0.0 && y >= 0.0
    ensures x * y >= 0.0
  {
  }

  lemma FloorMeans(x: real)
    ensures x.Floor as real <= x < x.Floor as real + 1.0
    ensures x < 1.0 ==> x.Floor < 1
    ensures x >= 1.0 ==> x.Floor >= 1
    ensures x >= 0.0 ==> x.Floor >= 0
  {
  }

  // ---------- who stands with whom ----------

  /** Tables and figures stand alone, titles in front, and nothing is blank. */
  ghost predicate StandsRight(members: seq<Block>) {
    && members != [] && (forall i | 0 <= i < |members| :: !Blank(members[i].text))
    && (forall i | 0 <= i < |members| && (members[i].kind == TableBlock || members[i].kind == FigureBlock) :: |members| == 1)
    && (forall i | 0 < i < |members| :: members[i].kind != TitleBlock)
  }

  /** In a merged chunk; and it is left out of the summaries iff it is a table or a figure. */
  lemma MembersStand(cfg: Config, es: seq<Emission>, e: Emission, order: nat)
    requires EmissionOk(cfg, es, e) && e.Merged?
    ensures StandsRight(e.members) && |PiecesOf(e, cfg, order)| == 1
    ensures PiecesOf(e, cfg, order)[0].skipSummary <==> e.members[0].kind == TableBlock || e.members[0].kind == FigureBlock
  {
    EmissionPieces(cfg, es, e, order);
    assert forall i | 0 <= i < |e.members| :: e.members[i] in e.members;
    hide PiecesOf, Blank, Bounded, CarryOk, Numbered;
  }
}
