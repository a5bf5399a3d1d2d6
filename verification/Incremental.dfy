/** Building the documents of a new version, from scratch or by reusing the previous version
    (app/ingest/pipeline.py _build_sources, app/ingest/diff.py). */
module Incremental {
  import opened Schema
  import opened Relay
  import opened Tables
  import opened Pipeline
  import opened Protocol
  import opened TableInvariant
  import opened IndexInvariant
  import opened Summarizer
  import Runs

  /** What _build_sources is called with, besides the stored state. `prevChunks` and `prevSummaries` list the
      previous version's rows in the order the database returns them. */
  datatype Input = Input(
    chunks: seq<NewChunk>, enabled: bool, minChangedRatio: real, minTokens: nat, llm: Llm,
    prevChunks: seq<Id>, prevSummaries: seq<Id>)

  // ---------- diff ----------

  function Hashes(pg: Pg, ids: seq<Id>): seq<Sha256>
    requires forall id :: id in ids ==> id in pg.chunks
  {
    seq(|ids|, i requires 0 <= i < |ids| && ids[i] in pg.chunks => pg.chunks[ids[i]].hash)
  }

  /** {p["content_hash"]: p for p in prev}: the last row with a given hash wins. */
  function PrevByHash(pg: Pg, ids: seq<Id>): map<Sha256, Id>
    requires forall id :: id in ids ==> id in pg.chunks
  {
    Bind(Hashes(pg, ids), ids)
  }

  function Fresh(chunks: seq<NewChunk>, prev: map<Sha256, Id>): seq<NewChunk> {
    if chunks == [] then []
    else
      var n := |chunks| - 1;
      Fresh(chunks[..n], prev) + if chunks[n].hash in prev then [] else [chunks[n]]
  }

  function Matched(chunks: seq<NewChunk>, prev: map<Sha256, Id>): map<Sha256, Id> {
    map h | h in prev && (exists i | 0 <= i < |chunks| :: chunks[i].hash == h) :: prev[h]
  }

  lemma PrevByHashSnoc(pg: Pg, ids: seq<Id>)
    requires ids != [] && forall id :: id in ids ==> id in pg.chunks
    ensures var n := |ids| - 1;
      && ids[n] in pg.chunks && (forall id :: id in ids[..n] ==> id in pg.chunks)
      && PrevByHash(pg, ids) == PrevByHash(pg, ids[..n])[pg.chunks[ids[n]].hash := ids[n]]
  {
    var n := |ids| - 1;
    assert ids[n] in ids;
    assert Hashes(pg, ids)[..n] == Hashes(pg, ids[..n]);
  }

  lemma MatchedSnoc(chunks: seq<NewChunk>, prev: map<Sha256, Id>)
    requires chunks != []
    ensures var n := |chunks| - 1; var h := chunks[n].hash;
      Matched(chunks, prev) == if h in prev then Matched(chunks[..n], prev)[h := prev[h]] else Matched(chunks[..n], prev)
  {
    var n := |chunks| - 1;
    forall h ensures h in Matched(chunks, prev) <==> h in Matched(chunks[..n], prev) || (h in prev && h == chunks[n].hash) {
      if h in Matched(chunks[..n], prev) {
        var i :| 0 <= i < n && chunks[..n][i].hash == h;
        assert chunks[i].hash == h;
      }
      if h in Matched(chunks, prev) && h != chunks[n].hash {
        var i :| 0 <= i < |chunks| && chunks[i].hash == h;
        assert chunks[..n][i].hash == h;
      }
    }
  }

  method Match(pg: Pg, chunks: seq<NewChunk>, prevIds: seq<Id>) returns (matched: map<Sha256, Id>, unmatched: seq<NewChunk>)
    requires forall id :: id in prevIds ==> id in pg.chunks
    ensures matched == Matched(chunks, PrevByHash(pg, prevIds)) && unmatched == Fresh(chunks, PrevByHash(pg, prevIds))
  {
    var prev: map<Sha256, Id> := map[];
    for i := 0 to |prevIds|
      invariant prev == PrevByHash(pg, prevIds[..i])
    {
      PrevByHashSnoc(pg, prevIds[..i + 1]);
      assert prevIds[..i + 1][..i] == prevIds[..i];
      prev := prev[pg.chunks[prevIds[i]].hash := prevIds[i]];
    }
    assert prevIds[..|prevIds|] == prevIds;
    matched, unmatched := map[], [];
    for i := 0 to |chunks|
      invariant matched == Matched(chunks[..i], prev) && unmatched == Fresh(chunks[..i], prev)
    {
      MatchedSnoc(chunks[..i + 1], prev);
      assert chunks[..i + 1][..i] == chunks[..i];
      if chunks[i].hash in prev {
        matched := matched[chunks[i].hash := prev[chunks[i].hash]];
      } else {
        unmatched := unmatched + [chunks[i]];
      }
    }
    assert chunks[..|chunks|] == chunks;
  }

  /** prev chunk id -> new chunk id; the last new chunk with a given hash wins. */
  function OldToNew(matched: map<Sha256, Id>, chunks: seq<NewChunk>): map<Id, Id> {
    if chunks == [] then map[]
    else
      var n := |chunks| - 1;
      var m := OldToNew(matched, chunks[..n]);
      if chunks[n].hash in matched then m[matched[chunks[n].hash] := chunks[n].id] else m
  }

  /** A remapped id belongs to the last new chunk that matched the old one. */
  lemma {:induction false} RemapSource(matched: map<Sha256, Id>, chunks: seq<NewChunk>, s: Id) returns (i: nat)
    requires s in OldToNew(matched, chunks)
    ensures i < |chunks| && chunks[i].id == OldToNew(matched, chunks)[s]
    ensures chunks[i].hash in matched && matched[chunks[i].hash] == s
    ensures forall j | i < j < |chunks| && chunks[j].hash in matched :: matched[chunks[j].hash] != s
  {
    var n := |chunks| - 1;
    if chunks[n].hash in matched && matched[chunks[n].hash] == s {
      i := n;
    } else {
      i := RemapSource(matched, chunks[..n], s);
    }
  }

  method OldToNewMap(matched: map<Sha256, Id>, chunks: seq<NewChunk>) returns (m: map<Id, Id>)
    ensures m == OldToNew(matched, chunks)
  {
    m := map[];
    for i := 0 to |chunks|
      invariant m == OldToNew(matched, chunks[..i])
    {
      assert chunks[..i + 1][..i] == chunks[..i];
      if chunks[i].hash in matched {
        m := m[matched[chunks[i].hash] := chunks[i].id];
      }
    }
    assert chunks[..|chunks|] == chunks;
  }

  /** q_vec_vec of a stored document, None if the document is missing. */
  function ReuseVector(es: Index, id: Id): Option<Vec> {
    if id in es then es[id].vec else None
  }

  // ---------- building ----------

  function EmbedAll(chunks: seq<NewChunk>): seq<Option<Vec>> {
    seq(|chunks|, i requires 0 <= i < |chunks| => Some(Embed(chunks[i].content)))
  }

  function ChunkVector(es: Index, matched: map<Sha256, Id>, c: NewChunk): Option<Vec> {
    if c.hash in matched then ReuseVector(es, matched[c.hash]) else Some(Embed(c.content))
  }

  function ChunkVectors(es: Index, matched: map<Sha256, Id>, chunks: seq<NewChunk>): seq<Option<Vec>> {
    seq(|chunks|, i requires 0 <= i < |chunks| => ChunkVector(es, matched, chunks[i]))
  }

  /** The reuse loop: matched chunks take the stored vector, the others the next fresh one. The iterator over
      the fresh vectors never runs dry and ends fully consumed. */
  method ReuseLoop(es: Index, ghost prev: map<Sha256, Id>, matched: map<Sha256, Id>, chunks: seq<NewChunk>, unmatched: seq<NewChunk>)
    returns (vecs: seq<Option<Vec>>, reused: nat, consumed: nat)
    requires matched == Matched(chunks, prev) && unmatched == Fresh(chunks, prev)
    ensures vecs == ChunkVectors(es, matched, chunks)
    ensures consumed == |unmatched| && reused + |unmatched| == |chunks|
  {
    vecs, reused, consumed := [], 0, 0;
    var freshVecs := EmbedAll(unmatched);
    for i := 0 to |chunks|
      invariant vecs == ChunkVectors(es, matched, chunks[..i])
      invariant consumed == |Fresh(chunks[..i], prev)| && reused + consumed == i
    {
      assert chunks[..i + 1][..i] == chunks[..i];
      if chunks[i].hash in matched {
        vecs := vecs + [ReuseVector(es, matched[chunks[i].hash])];
        reused := reused + 1;
      } else {
        FreshPrefix(chunks, prev, i);
        vecs := vecs + [freshVecs[consumed]];
        consumed := consumed + 1;
      }
    }
    assert chunks[..|chunks|] == chunks;
  }

  /** The next fresh vector belongs to the next unmatched chunk. */
  lemma {:induction false} FreshPrefix(chunks: seq<NewChunk>, prev: map<Sha256, Id>, i: nat)
    requires i < |chunks| && chunks[i].hash !in prev
    ensures |Fresh(chunks[..i], prev)| < |Fresh(chunks, prev)|
    ensures Fresh(chunks, prev)[|Fresh(chunks[..i], prev)|] == chunks[i]
  {
    var n := |chunks| - 1;
    if i < n {
      FreshPrefix(chunks[..n], prev, i);
      assert chunks[..n][..i] == chunks[..i];
    }
  }

  // ---------- summaries ----------

  /** All of its source chunks have an unchanged counterpart. */
  predicate Reusable(row: SummaryRow, m: map<Id, Id>) {
    row.sources != [] && forall s :: s in row.sources ==> s in m
  }

  function ReusedItem(es: Index, id: Id, row: SummaryRow, m: map<Id, Id>): SummaryItem
    requires Reusable(row, m)
  {
    SummaryItem(row.text, seq(|row.sources|, i requires 0 <= i < |row.sources| && row.sources[i] in m => m[row.sources[i]]),
                row.heading, ReuseVector(es, id))
  }

  function ReusedItems(pg: Pg, es: Index, ids: seq<Id>, m: map<Id, Id>): seq<SummaryItem>
    requires forall id :: id in ids ==> id in pg.summaries
  {
    if ids == [] then []
    else
      var n := |ids| - 1;
      assert ids == ids[..n] + [ids[n]];
      ReusedItems(pg, es, ids[..n], m)
      + if Reusable(pg.summaries[ids[n]], m) then [ReusedItem(es, ids[n], pg.summaries[ids[n]], m)] else []
  }

  function EmbedItems(raw: seq<RawItem>): seq<SummaryItem> {
    seq(|raw|, i requires 0 <= i < |raw| => SummaryItem(raw[i].text, raw[i].sources, raw[i].heading, Some(Embed(raw[i].text))))
  }

  /** Tables and figures do not enter the summary windows. */
  function Eligible(chunks: seq<NewChunk>): (r: seq<NewChunk>)
    ensures forall c :: c in r <==> c in chunks && !c.skip
    ensures |r| <= |chunks|
  {
    if chunks == [] then []
    else
      var n := |chunks| - 1;
      assert chunks == chunks[..n] + [chunks[n]];
      Eligible(chunks[..n]) + if chunks[n].skip then [] else [chunks[n]]
  }

  // ---------- the whole build ----------

  predicate Listed(pg: Pg, inp: Input) {
    && (forall id :: id in inp.prevChunks ==> id in pg.chunks)
    && (forall id :: id in inp.prevSummaries ==> id in pg.summaries)
  }

  function PrevMap(pg: Pg, inp: Input): map<Sha256, Id>
    requires Listed(pg, inp)
  {
    PrevByHash(pg, inp.prevChunks)
  }

  /** A version after the first, of which at most the given share is new, is built incrementally. */
  predicate IsIncremental(pg: Pg, inp: Input)
    requires Listed(pg, inp)
  {
    && Target(pg) > 1
    && (inp.chunks == [] || |Fresh(inp.chunks, PrevMap(pg, inp))| as real / |inp.chunks| as real <= inp.minChangedRatio)
    && (inp.chunks == [] ==> 0.0 <= inp.minChangedRatio)
  }

  function BuildVectors(pg: Pg, es: Index, inp: Input): seq<Option<Vec>>
    requires Listed(pg, inp)
  {
    if IsIncremental(pg, inp) then ChunkVectors(es, Matched(inp.chunks, PrevMap(pg, inp)), inp.chunks)
    else EmbedAll(inp.chunks)
  }

  function BuildItems(pg: Pg, es: Index, inp: Input): seq<SummaryItem>
    requires Listed(pg, inp)
  {
    if !inp.enabled then []
    else if !IsIncremental(pg, inp) then EmbedItems(FileSummaries(Eligible(inp.chunks), inp.minTokens, inp.llm))
    else
      var prev := PrevMap(pg, inp);
      var news := Fresh(inp.chunks, prev);
      ReusedItems(pg, es, inp.prevSummaries, OldToNew(Matched(inp.chunks, prev), inp.chunks))
      + if news != [] then EmbedItems(FileSummaries(Eligible(news), inp.minTokens, inp.llm)) else []
  }

  /** The summaries that the model writes for this build; the others are reused. */
  function NewSummaries(pg: Pg, inp: Input): seq<RawItem>
    requires Listed(pg, inp)
  {
    if !inp.enabled then []
    else if !IsIncremental(pg, inp) then FileSummaries(Eligible(inp.chunks), inp.minTokens, inp.llm)
    else
      var news := Fresh(inp.chunks, PrevMap(pg, inp));
      if news != [] then FileSummaries(Eligible(news), inp.minTokens, inp.llm) else []
  }

  /** Match against the previous version, if there is one, and choose the mode. */
  method ChooseMode(pg: Pg, inp: Input) returns (incremental: bool, matched: map<Sha256, Id>, unmatched: seq<NewChunk>)
    requires Listed(pg, inp)
    ensures incremental <==> IsIncremental(pg, inp)
    ensures incremental ==> matched == Matched(inp.chunks, PrevMap(pg, inp)) && unmatched == Fresh(inp.chunks, PrevMap(pg, inp))
  {
    hide Fresh, Matched, PrevByHash;
    matched, unmatched, incremental := map[], [], false;
    if Target(pg) > 1 {
      matched, unmatched := Match(pg, inp.chunks, inp.prevChunks);
      var changedRatio := if inp.chunks != [] then |unmatched| as real / |inp.chunks| as real else 0.0;
      incremental := changedRatio <= inp.minChangedRatio;
    }
  }

  method ReuseSummaries(pg: Pg, es: Index, ids: seq<Id>, oldToNew: map<Id, Id>) returns (items: seq<SummaryItem>)
    requires forall id :: id in ids ==> id in pg.summaries
    ensures items == ReusedItems(pg, es, ids, oldToNew)
  {
    items := [];
    for i := 0 to |ids|
      invariant forall id :: id in ids[..i] ==> id in pg.summaries
      invariant items == ReusedItems(pg, es, ids[..i], oldToNew)
    {
      hide Reusable, ReusedItem;
      assert ids[i] in ids && ids[..i + 1][..i] == ids[..i];
      if Reusable(pg.summaries[ids[i]], oldToNew) {
        items := items + [ReusedItem(es, ids[i], pg.summaries[ids[i]], oldToNew)];
      }
    }
    assert ids[..|ids|] == ids;
  }

  method BuildSources(pg: Pg, es: Index, inp: Input) returns (vecs: seq<Option<Vec>>, items: seq<SummaryItem>)
    requires Listed(pg, inp)
    ensures vecs == BuildVectors(pg, es, inp) && items == BuildItems(pg, es, inp)
  {
    hide IsIncremental, PrevMap, Fresh, Matched, Eligible, FileSummaries, EmbedItems, EmbedAll, ReusedItems, OldToNew, ChunkVectors;
    var incremental, matched, unmatched := ChooseMode(pg, inp);
    items := [];
    if !incremental {
      vecs := EmbedAll(inp.chunks);
      if inp.enabled {
        var raw := SummarizeFile(Eligible(inp.chunks), inp.minTokens, inp.llm);
        items := EmbedItems(raw);
      }
      return;
    }
    var reused, consumed;
    vecs, reused, consumed := ReuseLoop(es, PrevMap(pg, inp), matched, inp.chunks, unmatched);
    var oldToNew := OldToNewMap(matched, inp.chunks);
    if inp.enabled {
      items := ReuseSummaries(pg, es, inp.prevSummaries, oldToNew);
      if unmatched != [] {
        var raw := SummarizeFile(Eligible(unmatched), inp.minTokens, inp.llm);
        items := items + EmbedItems(raw);
      }
    }
  }
}
