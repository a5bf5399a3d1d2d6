/** Window summaries with a chunk-id whitelist (app/ingest/summarizer.py). */
module Summarizer {
  import opened Schema
  import opened Pipeline
  import opened Tables

  /** Number of cl100k tokens of a text. */
  const TokenCount: string -> nat

  datatype RawItem = RawItem(text: string, heading: string, sources: seq<Id>, coverage: string)

  /** The language model: the parsed reply for a window, None if the call or the parsing fails. */
  type Llm = seq<NewChunk> -> Option<seq<RawItem>>

  const WINDOW_TOKENS: nat := 8000
  const MIN_CHUNKS: nat := 5

  // ---------- one window ----------

  function Whitelisted(ids: seq<Id>, sources: seq<Id>): (r: seq<Id>)
    ensures forall id :: id in r <==> id in sources && id in ids
  {
    if sources == [] then []
    else
      var n := |sources| - 1;
      assert sources == sources[..n] + [sources[n]];
      Whitelisted(ids, sources[..n]) + if sources[n] in ids then [sources[n]] else []
  }

  predicate Accepted(ids: seq<Id>, it: RawItem) {
    Whitelisted(ids, it.sources) != [] && (it.coverage == "yes" || it.coverage == "uncertain")
  }

  function Valid(ids: seq<Id>, items: seq<RawItem>): (r: seq<RawItem>)
    ensures forall it | it in r :: it.sources != [] && forall id :: id in it.sources ==> id in ids
  {
    if items == [] then []
    else
      var n := |items| - 1;
      Valid(ids, items[..n])
      + if Accepted(ids, items[n]) then [items[n].(sources := Whitelisted(ids, items[n].sources))] else []
  }

  /** The sources kept are those on the list, in the order of the reply and as often. */
  lemma {:induction false} WhitelistMeans(ids: seq<Id>, sources: seq<Id>) returns (places: seq<nat>)
    ensures Filters(sources, (id: Id) => id in ids, Whitelisted(ids, sources), places)
  {
    if sources == [] {
      places := [];
    } else {
      var n := |sources| - 1;
      var front := WhitelistMeans(ids, sources[..n]);
      places := if sources[n] in ids then front + [n] else front;
      FiltersNext(sources, (id: Id) => id in ids, Whitelisted(ids, sources[..n]), front);
    }
  }

  /** A reply item that is kept: some source is on the list and its coverage is not denied. */
  predicate Keeps(ids: seq<Id>, it: RawItem) {
    (it.coverage == "yes" || it.coverage == "uncertain") && exists id | id in it.sources :: id in ids
  }

  lemma KeepsIff(ids: seq<Id>, it: RawItem)
    ensures Accepted(ids, it) <==> Keeps(ids, it)
  {
    var r := Whitelisted(ids, it.sources);
    if r != [] { assert r[0] in r; }
  }

  /** The items kept, in the order of the reply, each as it was replied except for the sources left out. */
  ghost predicate Validates(ids: seq<Id>, items: seq<RawItem>, valid: seq<RawItem>, places: seq<nat>) {
    && |places| == |valid| && Increasing(places)
    && (forall i | 0 <= i < |valid| :: places[i] < |items| && valid[i] == items[places[i]].(sources := Whitelisted(ids, items[places[i]].sources)))
    && (forall p: nat | p < |items| :: p in places <==> Keeps(ids, items[p]))
  }

  lemma ValidatesNext(ids: seq<Id>, items: seq<RawItem>, valid: seq<RawItem>, front: seq<nat>)
    requires items != [] && Validates(ids, items[..|items| - 1], valid, front)
    ensures var n := |items| - 1;
      if Keeps(ids, items[n]) then Validates(ids, items, valid + [items[n].(sources := Whitelisted(ids, items[n].sources))], front + [n])
      else Validates(ids, items, valid, front)
  {
    hide Keeps, Whitelisted;
    var n := |items| - 1;
    forall p: nat | p < n ensures items[..n][p] == items[p] { }
    forall i | 0 <= i < |front| ensures front[i] < n && items[..n][front[i]] == items[front[i]] { }
    assert n !in front;
  }

  lemma {:induction false} ValidMeans(ids: seq<Id>, items: seq<RawItem>) returns (places: seq<nat>)
    ensures Validates(ids, items, Valid(ids, items), places)
  {
    if items == [] {
      places := [];
    } else {
      var n := |items| - 1;
      var front := ValidMeans(ids, items[..n]);
      KeepsIff(ids, items[n]);
      hide Keeps, Accepted, Whitelisted;
      places := if Keeps(ids, items[n]) then front + [n] else front;
      ValidatesNext(ids, items, Valid(ids, items[..n]), front);
      assert Valid(ids, items[..n]) + [] == Valid(ids, items[..n]);
    }
  }

  method SummarizeWindow(window: seq<NewChunk>, llm: Llm) returns (valid: seq<RawItem>)
    ensures valid == WindowSummaries(window, llm)
  {
    var reply := llm(window);
    if reply.None? { return []; }
    var items := reply.value;
    valid := [];
    for i := 0 to |items|
      invariant valid == Valid(ChunkIds(window), items[..i])
    {
      assert items[..i + 1][..i] == items[..i];
      var srcs := Whitelisted(ChunkIds(window), items[i].sources);
      if srcs != [] && (items[i].coverage == "yes" || items[i].coverage == "uncertain") {
        valid := valid + [items[i].(sources := srcs)];
      }
    }
    assert items[..|items|] == items;
  }

  // ---------- windows of a file ----------

  function Tokens(chunks: seq<NewChunk>): nat {
    if chunks == [] then 0 else Tokens(chunks[..|chunks| - 1]) + TokenCount(chunks[|chunks| - 1].content)
  }

  function Join(windows: seq<seq<NewChunk>>): seq<NewChunk> {
    if windows == [] then [] else Join(windows[..|windows| - 1]) + windows[|windows| - 1]
  }

  /** A full window reaches the limit, and only with its last chunk. */
  predicate Full(w: seq<NewChunk>, limit: nat) {
    w != [] && Tokens(w) >= limit && (|w| > 1 ==> Tokens(w[..|w| - 1]) < limit)
  }

  /** The loop state after the given chunks: closed windows and the window being filled. */
  datatype Cut = Cut(windows: seq<seq<NewChunk>>, cur: seq<NewChunk>)

  function Greedy(chunks: seq<NewChunk>, limit: nat): Cut {
    if chunks == [] then Cut([], [])
    else
      var c := Greedy(chunks[..|chunks| - 1], limit);
      var cur := c.cur + [chunks[|chunks| - 1]];
      if Tokens(cur) >= limit then Cut(c.windows + [cur], []) else Cut(c.windows, cur)
  }

  function WindowsOf(chunks: seq<NewChunk>, limit: nat): seq<seq<NewChunk>> {
    var c := Greedy(chunks, limit);
    c.windows + if c.cur != [] then [c.cur] else []
  }

  lemma GreedyEmpty(limit: nat)
    ensures Greedy([], limit) == Cut([], []) && Tokens([]) == 0
  {
  }

  lemma GreedyNext(front: seq<NewChunk>, c: NewChunk, limit: nat)
    ensures var g := Greedy(front, limit); var cur := g.cur + [c];
      && Tokens(cur) == Tokens(g.cur) + TokenCount(c.content)
      && Greedy(front + [c], limit) == if Tokens(cur) >= limit then Cut(g.windows + [cur], []) else Cut(g.windows, cur)
  {
    var g := Greedy(front, limit);
    assert (front + [c])[..|front|] == front && (g.cur + [c])[..|g.cur|] == g.cur;
  }

  method Windows(chunks: seq<NewChunk>, limit: nat) returns (windows: seq<seq<NewChunk>>)
    ensures windows == WindowsOf(chunks, limit)
  {
    hide Greedy, Tokens;
    GreedyEmpty(limit);
    windows := [];
    var cur, curTokens := [], 0;
    for i := 0 to |chunks|
      invariant Greedy(chunks[..i], limit) == Cut(windows, cur) && curTokens == Tokens(cur)
    {
      GreedyNext(chunks[..i], chunks[i], limit);
      assert chunks[..i + 1] == chunks[..i] + [chunks[i]];
      cur, curTokens := cur + [chunks[i]], curTokens + TokenCount(chunks[i].content);
      if curTokens >= limit {
        windows := windows + [cur];
        cur, curTokens := [], 0;
      }
    }
    assert chunks[..|chunks|] == chunks;
    if cur != [] {
      windows := windows + [cur];
    }
  }

  lemma {:induction false} GreedyPartition(chunks: seq<NewChunk>, limit: nat)
    ensures var c := Greedy(chunks, limit); Join(c.windows) + c.cur == chunks
  {
    hide Greedy, Tokens;
    if chunks == [] {
      GreedyEmpty(limit);
    } else {
      var n := |chunks| - 1;
      var front, last := chunks[..n], chunks[n];
      assert chunks == front + [last];
      GreedyPartition(front, limit);
      GreedyNext(front, last, limit);
      var c := Greedy(front, limit);
      JoinSnoc(c.windows, c.cur + [last]);
      hide Join;
      assert Join(c.windows) + (c.cur + [last]) == front + [last];
    }
  }

  lemma {:induction false} GreedyFull(chunks: seq<NewChunk>, limit: nat)
    ensures var c := Greedy(chunks, limit);
      (c.cur != [] ==> Tokens(c.cur) < limit) && forall w | w in c.windows :: Full(w, limit)
  {
    hide Greedy, Tokens;
    if chunks == [] {
      GreedyEmpty(limit);
    } else {
      var n := |chunks| - 1;
      assert chunks == chunks[..n] + [chunks[n]];
      GreedyFull(chunks[..n], limit);
      GreedyNext(chunks[..n], chunks[n], limit);
      var c := Greedy(chunks[..n], limit);
      assert (c.cur + [chunks[n]])[..|c.cur|] == c.cur;
    }
  }

  /** The windows partition the chunks in order; all but the last reach the limit, each only with its last chunk. */
  lemma WindowsPartition(chunks: seq<NewChunk>, limit: nat)
    ensures var ws := WindowsOf(chunks, limit);
      && Join(ws) == chunks
      && forall i | 0 <= i < |ws| :: ws[i] != [] && (Full(ws[i], limit) || (i == |ws| - 1 && Tokens(ws[i]) < limit))
  {
    var c := Greedy(chunks, limit);
    GreedyPartition(chunks, limit);
    GreedyFull(chunks, limit);
    assert forall i | 0 <= i < |c.windows| :: c.windows[i] in c.windows;
    if c.cur != [] {
      JoinSnoc(c.windows, c.cur);
    } else {
      assert WindowsOf(chunks, limit) == c.windows;
    }
  }

  lemma JoinSnoc(windows: seq<seq<NewChunk>>, w: seq<NewChunk>)
    ensures Join(windows + [w]) == Join(windows) + w
  {
    assert (windows + [w])[..|windows|] == windows;
  }

  lemma {:induction false} JoinMember(windows: seq<seq<NewChunk>>, i: nat, c: NewChunk)
    requires i < |windows| && c in windows[i]
    ensures c in Join(windows)
  {
    var n := |windows| - 1;
    if i < n { JoinMember(windows[..n], i, c); }
  }

  function WindowSummaries(window: seq<NewChunk>, llm: Llm): seq<RawItem> {
    if llm(window).None? then [] else Valid(ChunkIds(window), llm(window).value)
  }

  function AllSummaries(windows: seq<seq<NewChunk>>, llm: Llm): seq<RawItem> {
    if windows == [] then [] else AllSummaries(windows[..|windows| - 1], llm) + WindowSummaries(windows[|windows| - 1], llm)
  }

  /** Summaries of a file: none for small files. */
  function FileSummaries(chunks: seq<NewChunk>, minTokens: nat, llm: Llm): seq<RawItem> {
    if Tokens(chunks) < minTokens || |chunks| < MIN_CHUNKS then []
    else AllSummaries(WindowsOf(chunks, WINDOW_TOKENS), llm)
  }

  lemma {:induction false} AllConcat(a: seq<seq<NewChunk>>, b: seq<seq<NewChunk>>, llm: Llm)
    ensures AllSummaries(a + b, llm) == AllSummaries(a, llm) + AllSummaries(b, llm)
  {
    hide WindowSummaries;
    if b == [] {
      assert a + b == a;
    } else {
      var n := |b| - 1;
      assert (a + b)[..|a + b| - 1] == a + b[..n];
      AllConcat(a, b[..n], llm);
    }
  }

  lemma {:induction false} TokensConcat(a: seq<NewChunk>, b: seq<NewChunk>)
    ensures Tokens(a + b) == Tokens(a) + Tokens(b)
  {
    if b == [] {
      assert a + b == a;
    } else {
      assert (a + b)[..|a + b| - 1] == a + b[..|b| - 1];
      TokensConcat(a, b[..|b| - 1]);
    }
  }

  /** The kept items of the reply to a window; nothing if the model failed. */
  ghost predicate AnswersWindow(window: seq<NewChunk>, llm: Llm, part: seq<RawItem>) {
    if llm(window).None? then part == []
    else exists places: seq<nat> :: Validates(ChunkIds(window), llm(window).value, part, places)
  }

  lemma WindowAnswers(window: seq<NewChunk>, llm: Llm)
    ensures AnswersWindow(window, llm, WindowSummaries(window, llm))
  {
    if llm(window).Some? {
      var places := ValidMeans(ChunkIds(window), llm(window).value);
      hide Validates, Valid;
      assert Validates(ChunkIds(window), llm(window).value, WindowSummaries(window, llm), places);
    }
  }

  /** The answers to all windows, one after the other. */
  ghost predicate Answers(windows: seq<seq<NewChunk>>, llm: Llm, out: seq<RawItem>, parts: seq<seq<RawItem>>) {
    |parts| == |windows| && out == Flat(parts) && forall i | 0 <= i < |windows| :: AnswersWindow(windows[i], llm, parts[i])
  }

  function Flat(parts: seq<seq<RawItem>>): seq<RawItem> {
    if parts == [] then [] else parts[0] + Flat(parts[1..])
  }

  lemma AllFirst(windows: seq<seq<NewChunk>>, llm: Llm)
    requires windows != []
    ensures AllSummaries(windows, llm) == WindowSummaries(windows[0], llm) + AllSummaries(windows[1..], llm)
  {
    hide WindowSummaries;
    assert windows == [windows[0]] + windows[1..] && [windows[0]][..0] == [];
    AllConcat([windows[0]], windows[1..], llm);
    assert AllSummaries([windows[0]], llm) == [] + WindowSummaries(windows[0], llm);
  }

  lemma {:induction false} AllAnswers(windows: seq<seq<NewChunk>>, llm: Llm) returns (parts: seq<seq<RawItem>>)
    ensures Answers(windows, llm, AllSummaries(windows, llm), parts)
  {
    hide WindowSummaries, AnswersWindow;
    if windows == [] {
      parts := [];
    } else {
      AllFirst(windows, llm);
      WindowAnswers(windows[0], llm);
      hide AllSummaries;
      var rest := AllAnswers(windows[1..], llm);
      parts := [WindowSummaries(windows[0], llm)] + rest;
      assert parts[1..] == rest;
      forall i | 0 < i < |windows| ensures windows[i] == windows[1..][i - 1] && parts[i] == rest[i - 1] { }
    }
  }

  /** The summaries of a file: none below the token limit or of fewer than five chunks; otherwise the kept items of the
      replies to windows that partition the chunks, each closed by the chunk with which it reaches 8000 tokens. */
  lemma FileMeans(chunks: seq<NewChunk>, minTokens: nat, llm: Llm) returns (windows: seq<seq<NewChunk>>, parts: seq<seq<RawItem>>)
    ensures var out := FileSummaries(chunks, minTokens, llm);
      if Tokens(chunks) < minTokens || |chunks| < 5 then out == []
      else
        && Answers(windows, llm, out, parts) && Join(windows) == chunks
        && forall i | 0 <= i < |windows| ::
             windows[i] != [] && (Full(windows[i], 8000) || (i == |windows| - 1 && Tokens(windows[i]) < 8000))
  {
    windows := WindowsOf(chunks, WINDOW_TOKENS);
    WindowsPartition(chunks, WINDOW_TOKENS);
    parts := AllAnswers(windows, llm);
  }

  method SummarizeFile(chunks: seq<NewChunk>, minTokens: nat, llm: Llm) returns (out: seq<RawItem>)
    ensures out == FileSummaries(chunks, minTokens, llm)
  {
    hide WindowSummaries, WindowsOf;
    out := [];
    var total := 0;
    for i := 0 to |chunks|
      invariant total == Tokens(chunks[..i])
    {
      assert chunks[..i + 1][..i] == chunks[..i];
      total := total + TokenCount(chunks[i].content);
    }
    assert chunks[..|chunks|] == chunks;
    if total < minTokens || |chunks| < MIN_CHUNKS { return; }
    var windows := Windows(chunks, WINDOW_TOKENS);
    for i := 0 to |windows|
      invariant out == AllSummaries(windows[..i], llm)
    {
      assert windows[..i + 1][..i] == windows[..i];
      var valid := SummarizeWindow(windows[i], llm);
      out := out + valid;
    }
    assert windows[..|windows|] == windows;
  }

  predicate Sourced(items: seq<RawItem>, ids: seq<Id>) {
    forall it | it in items :: it.sources != [] && forall id :: id in it.sources ==> id in ids
  }

  lemma WindowIds(windows: seq<seq<NewChunk>>, i: nat)
    requires i < |windows|
    ensures forall id :: id in ChunkIds(windows[i]) ==> id in ChunkIds(Join(windows))
  {
    forall id | id in ChunkIds(windows[i]) ensures id in ChunkIds(Join(windows)) {
      var j :| 0 <= j < |windows[i]| && ChunkIds(windows[i])[j] == id;
      JoinMember(windows, i, windows[i][j]);
      var k :| 0 <= k < |Join(windows)| && Join(windows)[k] == windows[i][j];
      assert ChunkIds(Join(windows))[k] == id;
    }
  }

  lemma {:induction false} AllSourced(windows: seq<seq<NewChunk>>, llm: Llm, ids: seq<Id>)
    requires forall i | 0 <= i < |windows| :: forall id :: id in ChunkIds(windows[i]) ==> id in ids
    ensures Sourced(AllSummaries(windows, llm), ids)
  {
    if windows != [] {
      AllSourced(windows[..|windows| - 1], llm, ids);
    }
  }

  /** Whatever the model replies, every summary names a non-empty list of ids, all of the given chunks. */
  lemma SummariesSourced(chunks: seq<NewChunk>, minTokens: nat, llm: Llm)
    ensures Sourced(FileSummaries(chunks, minTokens, llm), ChunkIds(chunks))
  {
    var ws := WindowsOf(chunks, WINDOW_TOKENS);
    WindowsPartition(chunks, WINDOW_TOKENS);
    forall i | 0 <= i < |ws| ensures forall id :: id in ChunkIds(ws[i]) ==> id in ChunkIds(chunks) {
      WindowIds(ws, i);
    }
    AllSourced(ws, llm, ChunkIds(chunks));
  }
}
