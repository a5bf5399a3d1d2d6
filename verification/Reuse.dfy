/** Why reusing the previous version is safe: the incremental build stages what a full rebuild would, exactly
    when the documents it reads back are in the index. */
module Reuse {
  import opened Schema
  import opened Relay
  import opened Tables
  import opened Pipeline
  import opened Protocol
  import opened TableInvariant
  import opened IndexInvariant
  import opened Summarizer
  import opened Incremental
  import Diff
  import Runs
  import Gc
  import Reconcile
  import Scenarios
  import Simhash

  /** Chunks as _new_chunks makes them, and complete listings of the previous version's rows. */
  ghost predicate InputOk(w: World, inp: Input) {
    && (forall i | 0 <= i < |inp.chunks| ::
          && inp.chunks[i].id == ChunkId(w.pg.file, Target(w.pg), i)
          && inp.chunks[i].order == i && inp.chunks[i].hash == Sha256(inp.chunks[i].content)
          && inp.chunks[i].simhash == Simhash.Simhash(inp.chunks[i].content))
    && Lists(inp.prevChunks, set id | id in w.pg.chunks && w.pg.chunks[id].version == Target(w.pg) - 1)
    && Lists(inp.prevSummaries, set id | id in w.pg.summaries && w.pg.summaries[id].version == Target(w.pg) - 1)
  }

  function CoveredIds(items: seq<SummaryItem>): set<Id> {
    set it, id | it in items && id in it.sources :: id
  }

  function Coverage(items: seq<SummaryItem>, chunks: seq<NewChunk>): real {
    if Eligible(chunks) == [] then 0.0 else |CoveredIds(items)| as real / |Eligible(chunks)| as real
  }

  /** What ingest_file stages for an input. */
  ghost function StagingOf(w: World, inp: Input, summaryIds: seq<Id>, anchorIds: seq<Id>): Staging
    requires InputOk(w, inp)
  {
    var items := BuildItems(w.pg, w.es, inp);
    Staging(inp.chunks, BuildVectors(w.pg, w.es, inp), items, summaryIds, anchorIds, Coverage(items, inp.chunks))
  }

  // ---------- reused rows ----------

  /** The previous row found by content hash has the same text, because the hash is injective. */
  lemma PrevSameText(w: World, inp: Input, c: NewChunk)
    requires ChunksOk(w.pg) && InputOk(w, inp) && c in inp.chunks && c.hash in PrevMap(w.pg, inp)
    ensures var p := PrevMap(w.pg, inp)[c.hash];
      p in w.pg.chunks && w.pg.chunks[p].content == c.content && w.pg.chunks[p].version == Target(w.pg) - 1
  {
    var i :| 0 <= i < |inp.prevChunks| && Hashes(w.pg, inp.prevChunks)[i] == c.hash && inp.prevChunks[i] == PrevMap(w.pg, inp)[c.hash];
    assert inp.prevChunks[i] in inp.prevChunks;
    var j :| 0 <= j < |inp.chunks| && inp.chunks[j] == c;
    assert w.pg.chunks[inp.prevChunks[i]].hash == c.hash;
  }

  /** A remapped summary source is a new chunk with the text of the old one. */
  lemma RemapSameText(w: World, inp: Input, s: Id)
    requires ChunksOk(w.pg) && InputOk(w, inp)
    requires s in OldToNew(Matched(inp.chunks, PrevMap(w.pg, inp)), inp.chunks)
    ensures exists c | c in inp.chunks ::
      c.id == OldToNew(Matched(inp.chunks, PrevMap(w.pg, inp)), inp.chunks)[s] && s in w.pg.chunks && w.pg.chunks[s].content == c.content
  {
    var prev := PrevMap(w.pg, inp);
    hide OldToNew, Matched, PrevMap, ChunksOk, InputOk;
    var i := RemapSource(Matched(inp.chunks, prev), inp.chunks, s);
    var c := inp.chunks[i];
    assert c in inp.chunks;
    MatchedAt(inp.chunks, prev, i);
    PrevSameText(w, inp, c);
  }

  lemma {:induction false} ReusedMembers(pg: Pg, es: Index, ids: seq<Id>, m: map<Id, Id>)
    requires forall id :: id in ids ==> id in pg.summaries
    ensures forall id | id in ids && Reusable(pg.summaries[id], m) :: ReusedItem(es, id, pg.summaries[id], m) in ReusedItems(pg, es, ids, m)
    ensures forall it | it in ReusedItems(pg, es, ids, m) ::
      exists id | id in ids :: Reusable(pg.summaries[id], m) && it == ReusedItem(es, id, pg.summaries[id], m)
  {
    if ids != [] {
      var n := |ids| - 1;
      assert ids == ids[..n] + [ids[n]];
      ReusedMembers(pg, es, ids[..n], m);
    }
  }

  predicate SameTextAt(pg: Pg, chunks: seq<NewChunk>, s: Id, id: Id) {
    exists c | c in chunks :: c.id == id && s in pg.chunks && pg.chunks[s].content == c.content
  }

  /** A previous summary all of whose sources are unchanged is staged again, with its text, its heading and the
      vector of its document, and source by source with a new chunk of the same text. */
  lemma ReusedMeaning(w: World, inp: Input, id: Id)
    requires ChunksOk(w.pg) && InputOk(w, inp) && IsIncremental(w.pg, inp) && inp.enabled
    requires id in inp.prevSummaries && Reusable(w.pg.summaries[id], Remap(w.pg, inp))
    ensures var row := w.pg.summaries[id];
      exists it | it in BuildItems(w.pg, w.es, inp) ::
        && it.text == row.text && it.heading == row.heading && it.vec == ReuseVector(w.es, id)
        && |it.sources| == |row.sources|
        && forall i | 0 <= i < |row.sources| :: SameTextAt(w.pg, inp.chunks, row.sources[i], it.sources[i])
  {
    var row, m := w.pg.summaries[id], Remap(w.pg, inp);
    var it := ReusedItem(w.es, id, row, m);
    ReusedMembers(w.pg, w.es, inp.prevSummaries, m);
    assert it in BuildItems(w.pg, w.es, inp);
    hide BuildItems, ReusedItems, ChunksOk, InputOk, IsIncremental;
    forall i | 0 <= i < |row.sources| ensures SameTextAt(w.pg, inp.chunks, row.sources[i], it.sources[i]) {
      assert row.sources[i] in row.sources;
      RemapSameText(w, inp, row.sources[i]);
    }
  }

  // ---------- referential integrity ----------

  lemma {:induction false} FreshSubset(chunks: seq<NewChunk>, prev: map<Sha256, Id>)
    ensures forall c :: c in Fresh(chunks, prev) <==> c in chunks && c.hash !in prev
  {
    if chunks != [] {
      var n := |chunks| - 1;
      assert chunks == chunks[..n] + [chunks[n]];
      FreshSubset(chunks[..n], prev);
    }
  }

  lemma IdsSubset(a: seq<NewChunk>, b: seq<NewChunk>)
    requires forall c :: c in a ==> c in b
    ensures forall id :: id in ChunkIds(a) ==> id in ChunkIds(b)
  {
    forall id | id in ChunkIds(a) ensures id in ChunkIds(b) {
      var i :| 0 <= i < |a| && ChunkIds(a)[i] == id;
      assert a[i] in b;
      var j :| 0 <= j < |b| && b[j] == a[i];
      assert ChunkIds(b)[j] == id;
    }
  }

  predicate ItemsSourced(items: seq<SummaryItem>, ids: seq<Id>) {
    forall it | it in items :: it.sources != [] && forall id :: id in it.sources ==> id in ids
  }

  lemma FileItemsSourced(chunks: seq<NewChunk>, all: seq<NewChunk>, minTokens: nat, llm: Llm)
    requires forall c :: c in chunks ==> c in all
    ensures ItemsSourced(EmbedItems(FileSummaries(Eligible(chunks), minTokens, llm)), ChunkIds(Eligible(chunks)))
    ensures ItemsSourced(EmbedItems(FileSummaries(Eligible(chunks), minTokens, llm)), ChunkIds(all))
  {
    var raw := FileSummaries(Eligible(chunks), minTokens, llm);
    SummariesSourced(Eligible(chunks), minTokens, llm);
    IdsSubset(Eligible(chunks), all);
    forall it | it in EmbedItems(raw) ensures exists r | r in raw :: it.sources == r.sources {
      var i :| 0 <= i < |raw| && EmbedItems(raw)[i] == it;
      assert raw[i] in raw;
    }
  }

  lemma ReusedSourced(w: World, inp: Input)
    requires InputOk(w, inp)
    ensures var m := OldToNew(Matched(inp.chunks, PrevMap(w.pg, inp)), inp.chunks);
      ItemsSourced(ReusedItems(w.pg, w.es, inp.prevSummaries, m), ChunkIds(inp.chunks))
  {
    var m := OldToNew(Matched(inp.chunks, PrevMap(w.pg, inp)), inp.chunks);
    ReusedMembers(w.pg, w.es, inp.prevSummaries, m);
    RemapIds(Matched(inp.chunks, PrevMap(w.pg, inp)), inp.chunks);
    hide OldToNew, Matched, PrevMap, ReusedItems, InputOk, ChunkIds;
    forall it | it in ReusedItems(w.pg, w.es, inp.prevSummaries, m)
      ensures it.sources != [] && forall id :: id in it.sources ==> id in ChunkIds(inp.chunks)
    {
      var p :| p in inp.prevSummaries && Reusable(w.pg.summaries[p], m) && it == ReusedItem(w.es, p, w.pg.summaries[p], m);
    }
  }

  /** The remap leads to new chunk ids. */
  lemma RemapIds(matched: map<Sha256, Id>, chunks: seq<NewChunk>)
    ensures forall s | s in OldToNew(matched, chunks) :: OldToNew(matched, chunks)[s] in ChunkIds(chunks)
  {
    hide OldToNew;
    var m := OldToNew(matched, chunks);
    forall s | s in m ensures m[s] in ChunkIds(chunks) {
      var i := RemapSource(matched, chunks, s);
      assert ChunkIds(chunks)[i] == m[s];
    }
  }

  /** Whatever the model replies and whatever is reused, every summary names a non-empty list of new chunks. */
  lemma BuiltSourced(w: World, inp: Input)
    requires InputOk(w, inp)
    ensures ItemsSourced(BuildItems(w.pg, w.es, inp), ChunkIds(inp.chunks))
  {
    var news := Fresh(inp.chunks, PrevMap(w.pg, inp));
    FreshSubset(inp.chunks, PrevMap(w.pg, inp));
    FileItemsSourced(inp.chunks, inp.chunks, inp.minTokens, inp.llm);
    FileItemsSourced(news, inp.chunks, inp.minTokens, inp.llm);
    ReusedSourced(w, inp);
    hide InputOk, ReusedItems, FileSummaries, Eligible, Fresh, OldToNew, Matched, IsIncremental;
  }

  // ---------- what the database accepts ----------

  lemma ReusedStorable(w: World, inp: Input)
    requires SummariesOk(w.pg) && InputOk(w, inp)
    ensures forall it | it in ReusedItems(w.pg, w.es, inp.prevSummaries, Remap(w.pg, inp)) :: StorableSummary(it.text, it.heading)
  {
    var m := Remap(w.pg, inp);
    ReusedMembers(w.pg, w.es, inp.prevSummaries, m);
    hide Remap, ReusedItems, InputOk;
    forall it | it in ReusedItems(w.pg, w.es, inp.prevSummaries, m) ensures StorableSummary(it.text, it.heading) {
      var id :| id in inp.prevSummaries && Reusable(w.pg.summaries[id], m) && it == ReusedItem(w.es, id, w.pg.summaries[id], m);
    }
  }

  lemma EmbeddedStorable(raw: seq<RawItem>)
    ensures StorableItems(EmbedItems(raw)) <==> forall it | it in raw :: StorableSummary(it.text, it.heading)
  {
    forall i | 0 <= i < |raw| ensures raw[i] in raw && EmbedItems(raw)[i].heading == raw[i].heading && EmbedItems(raw)[i].text == raw[i].text { }
  }

  lemma StorableConcat(a: seq<SummaryItem>, b: seq<SummaryItem>)
    requires forall it | it in a :: StorableSummary(it.text, it.heading)
    ensures StorableItems(a + b) <==> StorableItems(b)
  {
    if StorableItems(a + b) {
      forall i | 0 <= i < |b| ensures StorableSummary(b[i].text, b[i].heading) { assert (a + b)[|a| + i] == b[i]; }
    }
    if StorableItems(b) {
      forall i | 0 <= i < |a + b| ensures StorableSummary((a + b)[i].text, (a + b)[i].heading) {
        if i < |a| { assert a[i] in a; }
      }
    }
  }

  /** A reused summary has been stored before, so the database accepts the summaries of a build if and only if each
      one newly written has a heading, of at most 512 characters, and no U+0000 in its text or heading. */
  lemma StorableIff(w: World, inp: Input)
    requires SummariesOk(w.pg) && InputOk(w, inp)
    ensures StorableItems(BuildItems(w.pg, w.es, inp)) <==> forall it | it in NewSummaries(w.pg, inp) :: StorableSummary(it.text, it.heading)
  {
    EmbeddedStorable(NewSummaries(w.pg, inp));
    if inp.enabled && IsIncremental(w.pg, inp) {
      ReusedStorable(w, inp);
      StorableConcat(ReusedItems(w.pg, w.es, inp.prevSummaries, Remap(w.pg, inp)), EmbedItems(NewSummaries(w.pg, inp)));
      ReusedAndNew(w, inp);
    }
    hide SummariesOk, InputOk, ReusedItems, Remap, EmbedItems, FileSummaries;
  }

  lemma ReusedAndNew(w: World, inp: Input)
    requires InputOk(w, inp) && inp.enabled && IsIncremental(w.pg, inp)
    ensures BuildItems(w.pg, w.es, inp) ==
      ReusedItems(w.pg, w.es, inp.prevSummaries, Remap(w.pg, inp)) + EmbedItems(NewSummaries(w.pg, inp))
  {
    hide ReusedItems, FileSummaries, Matched, OldToNew, Fresh;
    assert EmbedItems([]) == [];
  }

  /** A model that summarises every window by its first chunk and names no heading. */
  function Headless(window: seq<NewChunk>): Option<seq<RawItem>> {
    if window == [] then None else Some([RawItem("summary", "", [window[0].id], "yes")])
  }

  lemma HeadlessWindow(window: seq<NewChunk>)
    requires window != []
    ensures WindowSummaries(window, Headless) == [RawItem("summary", "", [window[0].id], "yes")]
  {
    var it := RawItem("summary", "", [window[0].id], "yes");
    assert ChunkIds(window)[0] == window[0].id;
    assert [window[0].id][..0] == [];
    assert Whitelisted(ChunkIds(window), [window[0].id]) == [window[0].id];
    assert Accepted(ChunkIds(window), it) && Summarizer.Valid(ChunkIds(window), [it][..0]) == [];
    assert Summarizer.Valid(ChunkIds(window), [it]) == [it.(sources := [window[0].id])];
  }

  /** With that model no file of five eligible chunks is accepted at its first ingest. */
  lemma HeadlessRejected(w: World, inp: Input)
    requires InputOk(w, inp) && Target(w.pg) == 1 && inp.enabled && inp.llm == Headless && inp.minTokens == 0 && |Eligible(inp.chunks)| >= MIN_CHUNKS
    ensures !StorableItems(BuildItems(w.pg, w.es, inp))
  {
    hide BuildItems, FileSummaries, InputOk, Eligible, Target, EmbedItems, StorableItems, Headless;
    FirstBuild(w, inp);
    HeadlessSummaries(Eligible(inp.chunks));
    var raw := FileSummaries(Eligible(inp.chunks), 0, Headless);
    EmbeddedStorable(raw);
    assert raw[|raw| - 1] in raw;
  }

  /** The first ingest is a full build. */
  lemma FirstBuild(w: World, inp: Input)
    requires InputOk(w, inp) && Target(w.pg) == 1 && inp.enabled
    ensures BuildItems(w.pg, w.es, inp) == EmbedItems(FileSummaries(Eligible(inp.chunks), inp.minTokens, inp.llm))
  {
    hide FileSummaries, EmbedItems, Eligible;
  }

  lemma {:induction false} AllEligible(chunks: seq<NewChunk>)
    requires forall i | 0 <= i < |chunks| :: !chunks[i].skip
    ensures |Eligible(chunks)| == |chunks|
  {
    if chunks != [] {
      var n := |chunks| - 1;
      AllEligible(chunks[..n]);
      EligibleSnoc(chunks);
    }
  }

  lemma EligibleSnoc(chunks: seq<NewChunk>)
    requires chunks != [] && !chunks[|chunks| - 1].skip
    ensures Eligible(chunks) == Eligible(chunks[..|chunks| - 1]) + [chunks[|chunks| - 1]]
  {
  }

  /** Such a file: five or more texts, before the first ingest. */
  lemma HeadlessFile(file: string, texts: seq<string>) returns (w: World, inp: Input)
    requires |texts| >= MIN_CHUNKS && forall i | 0 <= i < |texts| :: StorableText(texts[i])
    ensures Initial(w) && w.pg.file == file && InputOk(w, inp) && |inp.chunks| == |texts|
    ensures StorableChunks(inp.chunks) && !StorableItems(BuildItems(w.pg, w.es, inp))
  {
    hide Headless, BuildItems, Scenarios.Reached, Eligible;
    w := Scenarios.Start(file);
    inp := Input(TextChunks(file, texts), true, 0.5, 0, Headless, [], []);
    TextInput(w, file, texts, inp);
    AllEligible(inp.chunks);
    HeadlessRejected(w, inp);
  }

  /** And a file of one text with a U+0000 in it, which is neither dropped by the decoder nor stripped. */
  lemma NulFile(file: string, before: string, after: string) returns (w: World, inp: Input)
    ensures Initial(w) && w.pg.file == file && InputOk(w, inp) && |inp.chunks| == 1 && inp.chunks[0].content == before + ['\U{0}'] + after
    ensures !StorableChunks(inp.chunks)
  {
    hide Scenarios.Reached;
    w := Scenarios.Start(file);
    var text := before + ['\U{0}'] + after;
    assert text[|before|] == '\U{0}' && !StorableText([text][0]);
    inp := Input(TextChunks(file, [text]), false, 0.5, 0, Headless, [], []);
    TextInput(w, file, [text], inp);
  }

  function TextChunks(file: string, texts: seq<string>): (r: seq<NewChunk>)
    ensures |r| == |texts|
  {
    seq(|texts|, i requires 0 <= i < |texts| =>
      NewChunk(ChunkId(file, 1, i), texts[i], Sha256(texts[i]), Simhash.Simhash(texts[i]), 1, i, false, None))
  }

  lemma TextInput(w: World, file: string, texts: seq<string>, inp: Input)
    requires w.pg.file == file && w.pg.chunks == map[] && w.pg.summaries == map[] && w.pg.versions == []
    requires inp.chunks == TextChunks(file, texts) && inp.prevChunks == [] && inp.prevSummaries == []
    ensures InputOk(w, inp) && Target(w.pg) == 1 && forall i | 0 <= i < |inp.chunks| :: !inp.chunks[i].skip
    ensures StorableChunks(inp.chunks) <==> forall i | 0 <= i < |texts| :: StorableText(texts[i])
  {
    hide Simhash.Simhash, StorableText, StorableChunks;
    TextsStorable(file, texts);
  }

  lemma TextsStorable(file: string, texts: seq<string>)
    ensures StorableChunks(TextChunks(file, texts)) <==> forall i | 0 <= i < |texts| :: StorableText(texts[i])
  {
    hide Simhash.Simhash, StorableText;
    forall i | 0 <= i < |texts| ensures StorableChunk(TextChunks(file, texts)[i]) <==> StorableText(texts[i]) { }
  }

  lemma HeadlessSummaries(el: seq<NewChunk>)
    requires |el| >= MIN_CHUNKS
    ensures var raw := FileSummaries(el, 0, Headless); raw != [] && raw[|raw| - 1].heading == ""
  {
    var windows := WindowsOf(el, WINDOW_TOKENS);
    WindowsPartition(el, WINDOW_TOKENS);
    assert windows == [] ==> Join(windows) == [];
    hide WindowsOf, Join;
    var n := |windows| - 1;
    HeadlessWindow(windows[n]);
    assert FileSummaries(el, 0, Headless) == AllSummaries(windows[..n], Headless) + WindowSummaries(windows[n], Headless);
  }

  /** So what ingest_file stages satisfies everything the protocol asks of a staging. */
  lemma BuiltStageOk(w: World, inp: Input, summaryIds: seq<Id>, anchorIds: seq<Id>)
    requires InputOk(w, inp) && |summaryIds| == |anchorIds| == |BuildItems(w.pg, w.es, inp)|
    requires FreshUuids(w, summaryIds) && FreshUuids(w, anchorIds) && forall id :: id in summaryIds ==> id !in anchorIds
    requires StorableChunks(inp.chunks) && StorableItems(BuildItems(w.pg, w.es, inp))
    ensures StageOk(w, StagingOf(w, inp, summaryIds, anchorIds))
  {
    BuiltSourced(w, inp);
    var items := BuildItems(w.pg, w.es, inp);
    assert forall i | 0 <= i < |items| :: items[i] in items;
  }

  // ---------- exactness ----------

  /** The documents of the previous version, as far as they are there, carry the embeddings of their rows' texts. */
  ghost predicate PrevExact(w: World) {
    forall id | Live(w.pg, id) && VersionOf(w.pg, id) == Target(w.pg) - 1 && id in w.es :: w.es[id].vec == Expected(w.pg, id).vec
  }

  lemma SyncPrevExact(w: World)
    requires Sync(w, true)
    ensures PrevExact(w)
  {
    forall id | Live(w.pg, id) && id in w.es ensures w.es[id].vec == Expected(w.pg, id).vec {
      assert SafeOf(w.pg, true)(id, At(w.es, id));
    }
  }

  /** The previous chunks with the hash of a new one have their documents. */
  ghost predicate ChunksThere(w: World, inp: Input)
    requires Listed(w.pg, inp)
  {
    var prev := PrevMap(w.pg, inp);
    forall i | 0 <= i < |inp.chunks| && inp.chunks[i].hash in prev :: prev[inp.chunks[i].hash] in w.es
  }

  function Remap(pg: Pg, inp: Input): map<Id, Id>
    requires Listed(pg, inp)
  {
    OldToNew(Matched(inp.chunks, PrevMap(pg, inp)), inp.chunks)
  }

  /** The previous summaries that the build reuses have their documents. */
  ghost predicate SummariesThere(w: World, inp: Input)
    requires Listed(w.pg, inp)
  {
    forall id | id in inp.prevSummaries && Reusable(w.pg.summaries[id], Remap(w.pg, inp)) :: id in w.es
  }

  /** Every document the build would read back is in the index: what a caller can check beforehand. */
  ghost predicate Ready(w: World, inp: Input)
    requires Listed(w.pg, inp)
  {
    IsIncremental(w.pg, inp) ==> ChunksThere(w, inp) && (inp.enabled ==> SummariesThere(w, inp))
  }

  lemma MatchedAt(chunks: seq<NewChunk>, prev: map<Sha256, Id>, i: nat)
    requires i < |chunks|
    ensures chunks[i].hash in Matched(chunks, prev) <==> chunks[i].hash in prev
    ensures chunks[i].hash in prev ==> Matched(chunks, prev)[chunks[i].hash] == prev[chunks[i].hash]
  {
  }

  /** A reused chunk whose previous document is missing gets no vector; one whose document is there gets
      exactly the embedding of its text. */
  lemma ReusedVector(w: World, inp: Input, i: nat)
    requires TablesOk(w) && PrevExact(w) && InputOk(w, inp) && i < |inp.chunks| && IsIncremental(w.pg, inp)
    ensures var prev := PrevMap(w.pg, inp); var c := inp.chunks[i];
      BuildVectors(w.pg, w.es, inp)[i] == if c.hash in prev && prev[c.hash] !in w.es then None else Some(Embed(c.content))
  {
    var prev, c := PrevMap(w.pg, inp), inp.chunks[i];
    MatchedAt(inp.chunks, prev, i);
    hide PrevExact, PrevMap, Matched, IsIncremental;
    if c.hash in prev {
      PrevSameText(w, inp, c);
      StoredVector(w, prev[c.hash]);
    }
    hide TablesOk, InputOk;
  }

  /** With exact vectors, a stored chunk's document carries the embedding of its text. */
  lemma StoredVector(w: World, id: Id)
    requires PrevExact(w) && id in w.pg.chunks && w.pg.chunks[id].version == Target(w.pg) - 1
    ensures id in w.es ==> w.es[id].vec == Some(Embed(w.pg.chunks[id].content))
  {
    assert Live(w.pg, id);
  }

  lemma ReusedItemVector(w: World, m: map<Id, Id>, id: Id)
    requires TablesOk(w) && PrevExact(w) && id in w.pg.summaries && w.pg.summaries[id].version == Target(w.pg) - 1
    requires Reusable(w.pg.summaries[id], m)
    ensures var it := ReusedItem(w.es, id, w.pg.summaries[id], m);
      it.vec == if id in w.es then Some(Embed(it.text)) else None
  {
    IdKinds(w.pg);
    assert Live(w.pg, id) && id !in w.pg.chunks;
  }

  predicate ItemsExact(items: seq<SummaryItem>) {
    forall it | it in items :: it.vec == Some(Embed(it.text))
  }

  lemma ExactConcat(a: seq<SummaryItem>, b: seq<SummaryItem>)
    ensures ItemsExact(a + b) <==> ItemsExact(a) && ItemsExact(b)
  {
    assert forall it :: it in a + b <==> it in a || it in b;
  }

  lemma EmbedExact(raw: seq<RawItem>)
    ensures ItemsExact(EmbedItems(raw)) && ItemsExact([])
  {
  }

  lemma ReusedExact(w: World, ids: seq<Id>, m: map<Id, Id>)
    requires TablesOk(w) && PrevExact(w)
    requires forall id :: id in ids ==> id in w.pg.summaries && w.pg.summaries[id].version == Target(w.pg) - 1
    ensures ItemsExact(ReusedItems(w.pg, w.es, ids, m)) <==> forall id | id in ids && Reusable(w.pg.summaries[id], m) :: id in w.es
  {
    ReusedMembers(w.pg, w.es, ids, m);
    forall id | id in ids && Reusable(w.pg.summaries[id], m)
      ensures ReusedItem(w.es, id, w.pg.summaries[id], m).vec == if id in w.es then Some(Embed(ReusedItem(w.es, id, w.pg.summaries[id], m).text)) else None
    {
      ReusedItemVector(w, m, id);
    }
    hide TablesOk, PrevExact, ReusedItems, ReusedItem, Reusable;
  }

  lemma ExactItems(w: World, inp: Input)
    requires TablesOk(w) && PrevExact(w) && InputOk(w, inp) && IsIncremental(w.pg, inp) && inp.enabled
    ensures ItemsExact(BuildItems(w.pg, w.es, inp)) <==> SummariesThere(w, inp)
  {
    var prev := PrevMap(w.pg, inp);
    var m, news := OldToNew(Matched(inp.chunks, prev), inp.chunks), Fresh(inp.chunks, prev);
    var reused := ReusedItems(w.pg, w.es, inp.prevSummaries, m);
    var raw := FileSummaries(Eligible(news), inp.minTokens, inp.llm);
    var built := if news != [] then EmbedItems(raw) else [];
    assert BuildItems(w.pg, w.es, inp) == reused + built;
    EmbedExact(raw);
    ExactConcat(reused, built);
    ReusedExact(w, inp.prevSummaries, m);
    hide TablesOk, PrevExact, InputOk, IsIncremental, BuildItems, ReusedItems, ItemsExact, Reusable, OldToNew, Matched, PrevMap, Fresh;
  }

  lemma ExactChunks(w: World, inp: Input)
    requires TablesOk(w) && PrevExact(w) && InputOk(w, inp) && IsIncremental(w.pg, inp)
    ensures var prev, vecs := PrevMap(w.pg, inp), BuildVectors(w.pg, w.es, inp);
      && |vecs| == |inp.chunks|
      && forall i | 0 <= i < |inp.chunks| ::
           vecs[i] == Some(Embed(inp.chunks[i].content)) <==> (inp.chunks[i].hash in prev ==> prev[inp.chunks[i].hash] in w.es)
  {
    forall i | 0 <= i < |inp.chunks|
      ensures BuildVectors(w.pg, w.es, inp)[i] == Some(Embed(inp.chunks[i].content))
              <==> (inp.chunks[i].hash in PrevMap(w.pg, inp) ==> PrevMap(w.pg, inp)[inp.chunks[i].hash] in w.es)
    {
      ReusedVector(w, inp, i);
    }
  }

  predicate ExactList(vecs: seq<Option<Vec>>, chunks: seq<NewChunk>) {
    forall i | 0 <= i < |vecs| && i < |chunks| :: vecs[i] == Some(Embed(chunks[i].content))
  }

  predicate ExactSummaries(items: seq<SummaryItem>) {
    forall i | 0 <= i < |items| :: items[i].vec == Some(Embed(items[i].text))
  }

  lemma ExactChunksIff(w: World, inp: Input)
    requires TablesOk(w) && PrevExact(w) && InputOk(w, inp) && IsIncremental(w.pg, inp)
    ensures ExactList(BuildVectors(w.pg, w.es, inp), inp.chunks) <==> ChunksThere(w, inp)
  {
    ExactChunks(w, inp);
    hide TablesOk, PrevExact, BuildVectors, InputOk, PrevMap, IsIncremental;
  }

  lemma ExactMembers(items: seq<SummaryItem>)
    ensures ExactSummaries(items) <==> ItemsExact(items)
  {
    if ExactSummaries(items) {
      forall it | it in items ensures it.vec == Some(Embed(it.text)) {
        var i :| 0 <= i < |items| && items[i] == it;
      }
    }
  }

  /** With exact vectors in the previous version, a build stages exact vectors if and only if everything it reads back is there. */
  lemma ExactIffReady(w: World, inp: Input, summaryIds: seq<Id>, anchorIds: seq<Id>)
    requires TablesOk(w) && PrevExact(w) && InputOk(w, inp)
    ensures ExactVectors(StagingOf(w, inp, summaryIds, anchorIds)) <==> Ready(w, inp)
  {
    assert Listed(w.pg, inp);
    hide ChunksOk, SummariesOk, AnchorsOk, PointersOk, IssuedOk, InflightOk, PrevExact, Lists, Listed;
    if IsIncremental(w.pg, inp) {
      ExactChunksIff(w, inp);
      if inp.enabled { ExactItems(w, inp); }
    } else {
      FullExact(w, inp);
    }
    ExactMembers(BuildItems(w.pg, w.es, inp));
    ExactParts(w, inp, summaryIds, anchorIds);
    hide BuildVectors, BuildItems, InputOk, ChunksThere, SummariesThere, ExactList, ExactVectors, ExactSummaries, ItemsExact, StagingOf;
  }

  lemma ExactParts(w: World, inp: Input, summaryIds: seq<Id>, anchorIds: seq<Id>)
    requires InputOk(w, inp)
    ensures var vecs, items := BuildVectors(w.pg, w.es, inp), BuildItems(w.pg, w.es, inp);
      && (ExactVectors(StagingOf(w, inp, summaryIds, anchorIds)) <==> ExactList(vecs, inp.chunks) && ExactSummaries(items))
      && (!inp.enabled ==> ExactSummaries(items))
  {
    hide BuildVectors, InputOk;
  }

  lemma FullExact(w: World, inp: Input)
    requires InputOk(w, inp) && !IsIncremental(w.pg, inp)
    ensures ExactList(BuildVectors(w.pg, w.es, inp), inp.chunks) && ExactSummaries(BuildItems(w.pg, w.es, inp))
  {
  }

  /** If nothing is outstanding when the ingest begins, everything it reads back is there. */
  lemma QuietReady(w: World, inp: Input)
    requires TablesOk(w) && SyncOk(w) && Quiet(w) && InputOk(w, inp)
    ensures Ready(w, inp)
  {
    forall id | Live(w.pg, id) ensures id in w.es {
      assert GoodOf(w.pg)(id, At(w.es, id));
    }
    forall i | 0 <= i < |inp.chunks| && inp.chunks[i].hash in PrevMap(w.pg, inp) ensures Live(w.pg, PrevMap(w.pg, inp)[inp.chunks[i].hash]) {
      PrevSameText(w, inp, inp.chunks[i]);
    }
  }

  /** Incremental refines full: the staged vectors are those of embedding every new chunk. */
  lemma IncrementalRefinesFull(w: World, inp: Input)
    requires TablesOk(w) && PrevExact(w) && InputOk(w, inp) && Ready(w, inp)
    ensures BuildVectors(w.pg, w.es, inp) == EmbedAll(inp.chunks)
  {
    if IsIncremental(w.pg, inp) {
      forall i | 0 <= i < |inp.chunks| ensures BuildVectors(w.pg, w.es, inp)[i] == EmbedAll(inp.chunks)[i] {
        ReusedVector(w, inp, i);
      }
    }
  }

  // ---------- over whole runs ----------

  /** The staging is what ingest_file builds from some input, with everything it reads back present. */
  ghost predicate BuiltReady(w: World, s: Staging) {
    exists inp: Input, sids: seq<Id>, aids: seq<Id> :: BuiltFrom(w, s, inp, sids, aids)
  }

  ghost predicate BuiltFrom(w: World, s: Staging, inp: Input, sids: seq<Id>, aids: seq<Id>) {
    InputOk(w, inp) && Ready(w, inp) && s == StagingOf(w, inp, sids, aids)
  }

  /** If every ingest of a run found the documents it reads back, every vector in the index stays the
      embedding of its row's text, through any number of reuse generations. */
  lemma {:induction false} ReuseStaysExact(ws: seq<World>, actions: seq<Action>, i: nat)
    requires Run(ws, actions) && Orderly(ws, actions) && i <= |actions|
    requires forall j | 0 <= j < i && actions[j].Stage? :: BuiltReady(ws[j], actions[j].s)
    ensures ws[i].exact
  {
    hide Apply, Enabled, TablesOk, Sync, BuiltReady, ExactVectors, Proper, PrevExact;
    if i > 0 {
      ReuseStaysExact(ws, actions, i - 1);
      Runs.RunSync(ws, actions, i - 1);
      var w, a := ws[i - 1], actions[i - 1];
      if a.Stage? {
        SyncPrevExact(w);
        BuiltExact(w, a.s);
      }
      Runs.ExactStep(w, a);
    }
  }

  lemma BuiltExact(w: World, s: Staging)
    requires TablesOk(w) && PrevExact(w) && BuiltReady(w, s)
    ensures ExactVectors(s)
  {
    hide TablesOk, InputOk, Ready, ExactVectors, StagingOf, PrevExact;
    var inp, sids, aids :| BuiltFrom(w, s, inp, sids, aids);
    ExactIffReady(w, inp, sids, aids);
  }

  // ---------- a lost vector ----------

  lemma StageApplies(w: World, s: Staging)
    requires Enabled(w, Stage(s))
    ensures Apply(w, Stage(s)) == StageWorld(w, s)
  {
  }

  /** A file of one chunk whose first ingest failed before its drain. */
  lemma PendingRun(text: Plain) returns (ws: seq<World>, actions: seq<Action>)
    ensures Run(ws, actions) && Orderly(ws, actions) && |ws| == 3
    ensures var w, id := ws[2], ChunkId("f", 1, 0);
      && w.exact && w.es == map[] && w.pg.file == "f" && w.pg.versions == [1] && w.pg.summaries == map[]
      && w.pg.chunks == map[id := ChunkRow(1, 0, text, 1, Sha256(text), Simhash.ToSigned(Simhash.Simhash(text)), false)]
  {
    var pg := Pg("f", "t", map[], map[], map[], [], Pointers(1, 1, 1, 1), false);
    var w0 := World(pg, map[], 0, 0, map[], None, {}, true, {});
    var s := Scenarios.OneChunk(pg, text);
    Scenarios.StageOneOk(w0, text);
    Scenarios.OneChunkPg(pg, text);
    var w1 := StageWorld(w0, s);
    StageApplies(w0, s);
    assert w1.pg == StagePg(pg, s) && w1.es == map[];
    assert w1.exact by { FirstExact(pg, text); }
    hide StagePg, Enqueue, StageOk, Simhash.Simhash, StageWorld;
    ws, actions := [w0, w1, w1.(inflight := None)], [Stage(s), Abort];
  }

  lemma FirstExact(pg: Pg, text: string)
    ensures ExactVectors(Scenarios.OneChunk(pg, text))
  {
    hide Simhash.Simhash;
  }

  /** Ingesting that file again unchanged stages its chunk without a vector: the version it would reuse is
      still unpublished. */
  lemma PendingLosesVector(text: Plain, llm: Llm) returns (ws: seq<World>, actions: seq<Action>, inp: Input)
    ensures Run(ws, actions) && Orderly(ws, actions) && |ws| == 3 && ws[2].exact
    ensures InputOk(ws[2], inp) && |inp.chunks| == 1 && inp.chunks[0].content == text
    ensures BuildVectors(ws[2].pg, ws[2].es, inp) == [None]
  {
    ws, actions := PendingRun(text);
    hide Run, Orderly;
    var c := NewChunk(ChunkId("f", 2, 0), text, Sha256(text), Simhash.Simhash(text), 1, 0, false, None);
    inp := Input([c], false, 0.5, 0, llm, [ChunkId("f", 1, 0)], []);
    OneChunkInput(ws[2], inp, text);
    NoVector(ws[2].pg, inp, ChunkId("f", 1, 0));
  }

  lemma OneChunkInput(w: World, inp: Input, text: string)
    requires w.pg.file == "f" && w.pg.versions == [1] && w.pg.summaries == map[]
    requires w.pg.chunks == map[ChunkId("f", 1, 0) := ChunkRow(1, 0, text, 1, Sha256(text), Simhash.ToSigned(Simhash.Simhash(text)), false)]
    requires inp.chunks == [NewChunk(ChunkId("f", 2, 0), text, Sha256(text), Simhash.Simhash(text), 1, 0, false, None)]
    requires inp.prevChunks == [ChunkId("f", 1, 0)] && inp.prevSummaries == []
    ensures InputOk(w, inp) && Target(w.pg) == 2
  {
    assert Target(w.pg) == 2;
  }

  lemma NoVector(pg: Pg, inp: Input, id: Id)
    requires id in pg.chunks && |inp.chunks| == 1 && inp.prevChunks == [id] && inp.prevSummaries == [] && inp.minChangedRatio >= 0.0
    requires pg.chunks[id].hash == inp.chunks[0].hash && Target(pg) > 1
    ensures BuildVectors(pg, map[], inp) == [None]
  {
    assert Hashes(pg, inp.prevChunks) == [inp.chunks[0].hash];
    assert PrevMap(pg, inp) == map[inp.chunks[0].hash := id];
    assert Fresh(inp.chunks, PrevMap(pg, inp)) == [];
    MatchedAt(inp.chunks, PrevMap(pg, inp), 0);
  }

  // ---------- coverage ----------

  lemma {:induction false} SubsetSize<T>(a: set<T>, b: set<T>)
    requires a <= b
    ensures |a| <= |b|
  {
    if a != {} {
      var x :| x in a;
      SubsetSize(a - {x}, b - {x});
    }
  }

  lemma {:induction false} IdSetSize(chunks: seq<NewChunk>)
    ensures |set id | id in ChunkIds(chunks)| <= |chunks|
  {
    if chunks == [] {
      assert (set id | id in ChunkIds(chunks)) == {};
    } else {
      var n := |chunks| - 1;
      IdSetSize(chunks[..n]);
      assert ChunkIds(chunks) == ChunkIds(chunks[..n]) + [chunks[n].id];
      assert (set id | id in ChunkIds(chunks)) == (set id | id in ChunkIds(chunks[..n])) + {chunks[n].id};
    }
  }

  /** In a full build the coverage ratio is a share: only eligible chunks can be covered. */
  lemma FullCoverage(w: World, inp: Input)
    requires InputOk(w, inp) && !IsIncremental(w.pg, inp)
    ensures 0.0 <= Coverage(BuildItems(w.pg, w.es, inp), inp.chunks) <= 1.0
  {
    var items, el := BuildItems(w.pg, w.es, inp), Eligible(inp.chunks);
    FileItemsSourced(inp.chunks, inp.chunks, inp.minTokens, inp.llm);
    hide InputOk, IsIncremental, FileSummaries;
    SubsetSize(CoveredIds(items), set id | id in ChunkIds(el));
    IdSetSize(el);
    if el != [] { Ratio(|CoveredIds(items)|, |el|); }
  }

  function EligiblePlaces(chunks: seq<NewChunk>): set<nat> {
    set i | 0 <= i < |chunks| && !chunks[i].skip
  }

  predicate Named(items: seq<SummaryItem>, id: Id) {
    exists it | it in items :: id in it.sources
  }

  /** The chunks that some summary names. */
  function NamedPlaces(items: seq<SummaryItem>, chunks: seq<NewChunk>): set<nat> {
    set i | 0 <= i < |chunks| && Named(items, chunks[i].id)
  }

  /** The coverage that is staged: the number of chunks that some summary names by that of the chunks that enter the
      windows, or zero if none does. */
  lemma CoverageMeans(w: World, inp: Input, summaryIds: seq<Id>, anchorIds: seq<Id>)
    requires InputOk(w, inp)
    ensures var s := StagingOf(w, inp, summaryIds, anchorIds); var n := |EligiblePlaces(s.chunks)|;
      s.coverage == if n == 0 then 0.0 else |NamedPlaces(s.items, s.chunks)| as real / n as real
  {
    var items := BuildItems(w.pg, w.es, inp);
    EligibleCount(inp.chunks);
    BuiltSourced(w, inp);
    assert IdsInOrder(w.pg.file, Target(w.pg), inp.chunks);
    hide IdsInOrder, ItemsSourced, InputOk, BuildItems, Target, Eligible, NamedPlaces, EligiblePlaces, BuildVectors, CoveredIds;
    CoveredCount(w.pg.file, Target(w.pg), items, inp.chunks);
  }

  lemma EligibleCount(chunks: seq<NewChunk>)
    ensures |Eligible(chunks)| == |EligiblePlaces(chunks)|
  {
    var places := Diff.EligibleMeans(chunks);
    FiltersCount(chunks, (c: NewChunk) => !c.skip, Eligible(chunks), places);
    assert EligiblePlaces(chunks) == Kept(chunks, (c: NewChunk) => !c.skip);
  }

  ghost predicate IdsInOrder(file: string, target: nat, chunks: seq<NewChunk>) {
    forall i | 0 <= i < |chunks| :: chunks[i].id == ChunkId(file, target, i)
  }

  lemma NamedPlace(items: seq<SummaryItem>, chunks: seq<NewChunk>, id: Id) returns (i: nat)
    requires ItemsSourced(items, ChunkIds(chunks)) && Named(items, id)
    ensures i < |chunks| && chunks[i].id == id
  {
    assert id in ChunkIds(chunks) by { hide ChunkIds; }
    i :| 0 <= i < |ChunkIds(chunks)| && ChunkIds(chunks)[i] == id;
  }

  lemma CoveredNamed(items: seq<SummaryItem>, id: Id)
    ensures id in CoveredIds(items) <==> Named(items, id)
  {
  }

  lemma PlaceNamed(items: seq<SummaryItem>, chunks: seq<NewChunk>, i: nat)
    ensures i in NamedPlaces(items, chunks) <==> i < |chunks| && Named(items, chunks[i].id)
  {
  }

  lemma IdAt(file: string, target: nat, chunks: seq<NewChunk>, i: nat)
    requires IdsInOrder(file, target, chunks) && i < |chunks|
    ensures chunks[i].id == ChunkId(file, target, i)
  {
  }

  /** The ids that summaries name are those of the named places. */
  lemma CoveredPlace(file: string, target: nat, items: seq<SummaryItem>, chunks: seq<NewChunk>, x: Id)
    requires ItemsSourced(items, ChunkIds(chunks)) && IdsInOrder(file, target, chunks)
    ensures x in CoveredIds(items) <==> x in PlaceIds(file, target, NamedPlaces(items, chunks))
  {
    hide Named, ItemsSourced, IdsInOrder, CoveredIds, NamedPlaces, PlaceIds, ChunkIds;
    CoveredNamed(items, x);
    InPlaceIds(file, target, NamedPlaces(items, chunks), x);
    if Named(items, x) {
      var i := NamedPlace(items, chunks, x);
      IdAt(file, target, chunks, i);
      PlaceNamed(items, chunks, i);
    } else if x.ChunkId? {
      PlaceNamed(items, chunks, x.order);
      if x.order < |chunks| { IdAt(file, target, chunks, x.order); }
    }
  }

  lemma CoveredCount(file: string, target: nat, items: seq<SummaryItem>, chunks: seq<NewChunk>)
    requires ItemsSourced(items, ChunkIds(chunks)) && IdsInOrder(file, target, chunks)
    ensures |CoveredIds(items)| == |NamedPlaces(items, chunks)|
  {
    hide ItemsSourced, IdsInOrder, CoveredIds, NamedPlaces, PlaceIds, ChunkIds;
    forall x ensures x in CoveredIds(items) <==> x in PlaceIds(file, target, NamedPlaces(items, chunks)) {
      CoveredPlace(file, target, items, chunks, x);
    }
    PlaceIdsSize(file, target, NamedPlaces(items, chunks));
    assert CoveredIds(items) == PlaceIds(file, target, NamedPlaces(items, chunks));
  }

  function PlaceIds(file: string, target: nat, at: set<nat>): set<Id> {
    set i | i in at :: ChunkId(file, target, i)
  }

  lemma InPlaceIds(file: string, target: nat, at: set<nat>, id: Id)
    ensures id in PlaceIds(file, target, at) <==> id.ChunkId? && id.file == file && id.version == target && id.order in at
  {
  }

  lemma {:induction false} PlaceIdsSize(file: string, target: nat, at: set<nat>)
    ensures |PlaceIds(file, target, at)| == |at|
    decreases |at|
  {
    if at == {} {
      assert PlaceIds(file, target, at) == {};
    } else {
      var x :| x in at;
      PlaceIdsSize(file, target, at - {x});
      assert PlaceIds(file, target, at) == PlaceIds(file, target, at - {x}) + {ChunkId(file, target, x)};
    }
  }

  lemma Ratio(a: nat, b: nat)
    requires a <= b && b > 0
    ensures 0.0 <= a as real / b as real <= 1.0
  {
  }
}
