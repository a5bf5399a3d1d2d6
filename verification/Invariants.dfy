/** The PostgreSQL-side invariant: it holds in every reachable state, whatever happens to the index. */
module TableInvariant {
  import opened Schema
  import opened Relay
  import opened Tables
  import opened Pipeline
  import opened Protocol
  import Gc
  import Reconcile
  import Simhash

  ghost predicate PointersOk(pg: Pg) {
    && Gc.LockstepOk(pg.active) && pg.active.doc >= 1
    && (if pg.flipped then pg.active.doc in pg.versions else pg.active.doc == 1)
    && Distinct(pg.versions) && forall v :: v in pg.versions ==> v >= 1
  }

  /** Deterministic ids, stored hashes and fingerprints, and availability exactly for the published version. */
  ghost predicate ChunksOk(pg: Pg) {
    forall id | id in pg.chunks ::
      var row := pg.chunks[id];
      && id == ChunkId(pg.file, row.version, row.order) && row.version in pg.versions
      && row.hash == Sha256(row.content) && row.sim == Simhash.ToSigned(Simhash.Simhash(row.content)) && StorableText(row.content)
      && (row.available <==> pg.flipped && row.version == pg.active.chunk)
  }

  /** Every summary names a non-empty list of stored chunks of its own version. */
  ghost predicate SummariesOk(pg: Pg) {
    forall id | id in pg.summaries ::
      var row := pg.summaries[id];
      && id.Uuid4? && row.version in pg.versions && row.sources != [] && StorableSummary(row.text, row.heading)
      && forall c :: c in row.sources ==> c in pg.chunks && pg.chunks[c].version == row.version
  }

  /** The text a summary's anchor was taken from: that of its first source. */
  ghost function FirstContent(pg: Pg, id: Id): string
    requires SummariesOk(pg) && id in pg.summaries
  {
    pg.chunks[pg.summaries[id].sources[0]].content
  }

  predicate Fingerprints(content: string, a: AnchorRow) {
    && a.targetHash == (if content != "" then Some(Sha256(content)) else None)
    && a.fingerprint == (if content != "" then Some(Simhash.SimhashHex(content)) else None)
  }

  ghost predicate AnchorOk(pg: Pg, a: AnchorRow)
    requires SummariesOk(pg)
  {
    && a.summary in pg.summaries && a.version == pg.summaries[a.summary].version && a.section == pg.summaries[a.summary].heading
    && (a.validity == Valid ==> a.target == Some(pg.summaries[a.summary].sources[0])) && a.target.Some?
    && Fingerprints(FirstContent(pg, a.summary), a)
  }

  ghost predicate AnchorsOk(pg: Pg)
    requires SummariesOk(pg)
  {
    forall a | a in pg.anchors :: AnchorOk(pg, pg.anchors[a])
  }

  /** Ids handed out so far: live rows are among them, and no chunk id is of a version still to come. */
  ghost predicate IssuedOk(w: World) {
    && (forall id :: Live(w.pg, id) ==> id in w.issued)
    && (forall a :: a in w.pg.anchors ==> a in w.issued)
    && (forall id | id in w.issued && id.ChunkId? :: id.file == w.pg.file && id.version <= Latest(w.pg.versions))
    && (forall k :: k in w.outbox ==> k < w.next)
  }

  /** The ingest in flight is the latest staged version, complete. */
  ghost predicate InflightOk(w: World) {
    w.inflight.Some? ==>
      var i := w.inflight.value;
      && i.target in w.pg.versions && i.target == Latest(w.pg.versions) && (w.pg.flipped ==> w.pg.active.doc < i.target)
      && forall id :: id in i.ids <==> Live(w.pg, id) && VersionOf(w.pg, id) == i.target
  }

  ghost predicate StoredOk(w: World) {
    PointersOk(w.pg) && ChunksOk(w.pg) && SummariesOk(w.pg) && AnchorsOk(w.pg) && IssuedOk(w) && InflightOk(w)
  }

  /** The row holds in pg what it held in pg0, up to availability. */
  predicate KeptRow(pg0: Pg, pg: Pg, id: Id) {
    || (id in pg0.chunks && id in pg.chunks && pg0.chunks[id].(available := false) == pg.chunks[id].(available := false))
    || (id in pg0.summaries && id in pg.summaries && pg0.summaries[id] == pg.summaries[id])
  }

  /** Tables that some reconcile loaded earlier: their rows were handed out by this file, and those still
      there are as they were. Before the first publish all of them are. */
  ghost predicate EarlierTables(w: World, pg0: Pg) {
    && pg0.file == w.pg.file && pg0.tenant == w.pg.tenant && ChunksOk(pg0) && SummariesOk(pg0)
    && (forall id | Live(pg0, id) :: id in w.issued)
    && (forall id | Live(pg0, id) && Live(w.pg, id) :: KeptRow(pg0, w.pg, id))
    && (!w.pg.flipped ==> pg0.active == w.pg.active && forall id | Live(pg0, id) :: Live(w.pg, id))
  }

  ghost predicate ReadingsOk(w: World) {
    forall r | r in w.readings :: EarlierTables(w, r.pg)
  }

  ghost predicate TablesOk(w: World) {
    StoredOk(w) && ReadingsOk(w)
  }

  // ---------- stage ----------

  /** Staging never reuses an id: no chunk id is staged twice, because the target version is fresh. */
  lemma FreshKeys(w: World, s: Staging)
    requires IssuedOk(w) && StageOk(w, s)
    ensures Target(w.pg) !in w.pg.versions
    ensures forall id :: id in ChunkIds(s.chunks) || id in s.summaryIds || id in s.anchorIds ==> id !in w.issued
    ensures Distinct(ChunkIds(s.chunks)) && Distinct(s.summaryIds) && Distinct(s.anchorIds)
    ensures forall id :: id in s.summaryIds || id in s.anchorIds ==> id.Uuid4?
  {
    forall id | id in ChunkIds(s.chunks) ensures id !in w.issued {
      var i :| 0 <= i < |s.chunks| && ChunkIds(s.chunks)[i] == id;
    }
  }

  predicate IsNewChunk(pg: Pg, s: Staging, id: Id, row: ChunkRow) {
    exists i | 0 <= i < |s.chunks| :: id == ChunkId(pg.file, Target(pg), i) && row == NewChunkRow(s.chunks[i], Target(pg))
      && s.chunks[i].order == i && s.chunks[i].hash == Sha256(s.chunks[i].content) && s.chunks[i].simhash == Simhash.Simhash(s.chunks[i].content)
      && StorableText(s.chunks[i].content)
  }

  lemma StagedChunks(w: World, s: Staging)
    requires IssuedOk(w) && StageOk(w, s)
    ensures var t, t' := w.pg.chunks, StagePg(w.pg, s).chunks;
      && (forall i | 0 <= i < |s.chunks| :: s.chunks[i].id in t' && t'[s.chunks[i].id] == NewChunkRow(s.chunks[i], Target(w.pg)))
      && (forall id :: id in t' <==> id in t || id in ChunkIds(s.chunks))
      && (forall id | id in t :: t'[id] == t[id])
  {
    FreshKeys(w, s);
    var ids := ChunkIds(s.chunks);
    assert forall i | 0 <= i < |s.chunks| :: ids[i] == s.chunks[i].id;
    InsertAll(w.pg.chunks, ids, ChunkRows(s.chunks, Target(w.pg)));
  }

  lemma StagedNewChunk(w: World, s: Staging, id: Id)
    requires IssuedOk(w) && StageOk(w, s) && id in StagePg(w.pg, s).chunks && id !in w.pg.chunks
    ensures IsNewChunk(w.pg, s, id, StagePg(w.pg, s).chunks[id])
  {
    StagedChunks(w, s);
    hide StagePg, StageOk, Simhash.Simhash, NewChunkRow, Latest, IssuedOk, StorableText;
    var i :| 0 <= i < |s.chunks| && ChunkIds(s.chunks)[i] == id;
    StagedChunkOk(w, s, i);
  }

  lemma StagedChunkOk(w: World, s: Staging, i: nat)
    requires StageOk(w, s) && i < |s.chunks|
    ensures var c := s.chunks[i];
      && c.id == ChunkId(w.pg.file, Target(w.pg), i) && c.order == i && c.hash == Sha256(c.content)
      && c.simhash == Simhash.Simhash(c.content) && StorableText(c.content) && ChunkIds(s.chunks)[i] == c.id
  {
    hide Simhash.Simhash, StorableText, Latest;
    assert StorableChunk(s.chunks[i]);
  }

  lemma StagedNewChunks(w: World, s: Staging)
    requires IssuedOk(w) && StageOk(w, s)
    ensures var t, t' := w.pg.chunks, StagePg(w.pg, s).chunks;
      forall id | id in t' :: if id in t then t'[id] == t[id] else IsNewChunk(w.pg, s, id, t'[id])
  {
    StagedChunks(w, s);
    hide StagePg, StageOk, IssuedOk, IsNewChunk;
    forall id | id in StagePg(w.pg, s).chunks && id !in w.pg.chunks ensures IsNewChunk(w.pg, s, id, StagePg(w.pg, s).chunks[id]) {
      StagedNewChunk(w, s, id);
    }
  }

  lemma StagedSummaries(w: World, s: Staging)
    requires IssuedOk(w) && StageOk(w, s)
    ensures var t, t' := w.pg.summaries, StagePg(w.pg, s).summaries;
      && (forall i | 0 <= i < |s.items| :: s.summaryIds[i] in t' && t'[s.summaryIds[i]] == SummaryRows(s.items, s.coverage, Target(w.pg))[i])
      && (forall id :: id in t' <==> id in t || id in s.summaryIds)
      && (forall id | id in t :: t'[id] == t[id])
  {
    FreshKeys(w, s);
    InsertAll(w.pg.summaries, s.summaryIds, SummaryRows(s.items, s.coverage, Target(w.pg)));
  }

  lemma StagedAnchors(w: World, s: Staging)
    requires IssuedOk(w) && StageOk(w, s)
    ensures var t, t' := w.pg.anchors, StagePg(w.pg, s).anchors;
      && (forall i | 0 <= i < |s.items| :: s.anchorIds[i] in t' && t'[s.anchorIds[i]] == NewAnchorRow(s.chunks, s.items[i], s.summaryIds[i], Target(w.pg)))
      && (forall id :: id in t' <==> id in t || id in s.anchorIds)
      && (forall id | id in t :: t'[id] == t[id])
  {
    FreshKeys(w, s);
    InsertAll(w.pg.anchors, s.anchorIds, AnchorRows(s, Target(w.pg)));
  }

  lemma {:induction false} LatestSnoc(versions: seq<nat>, v: nat)
    ensures Latest(versions + [v]) == if v > Latest(versions) then v else Latest(versions)
  {
    if versions != [] {
      LatestSnoc(versions[1..], v);
      assert (versions + [v])[1..] == versions[1..] + [v];
    } else {
      assert ([] + [v])[1..] == [];
    }
  }

  lemma StagePointers(pg: Pg, pg': Pg)
    requires PointersOk(pg)
    requires pg'.versions == pg.versions + [Target(pg)] && pg'.active == pg.active && pg'.flipped == pg.flipped
    ensures PointersOk(pg') && Latest(pg'.versions) == Target(pg)
  {
    LatestSnoc(pg.versions, Target(pg));
    assert Target(pg) !in pg.versions;
    assert Distinct(pg'.versions);
  }

  lemma StageChunksOk(pg: Pg, pg': Pg, s: Staging)
    requires PointersOk(pg) && ChunksOk(pg)
    requires pg'.versions == pg.versions + [Target(pg)] && pg'.active == pg.active && pg'.flipped == pg.flipped && pg'.file == pg.file
    requires forall id | id in pg'.chunks :: if id in pg.chunks then pg'.chunks[id] == pg.chunks[id] else IsNewChunk(pg, s, id, pg'.chunks[id])
    ensures ChunksOk(pg')
  {
  }

  predicate IsNewSummary(pg: Pg, s: Staging, id: Id, row: SummaryRow) {
    && id.Uuid4? && row.version == Target(pg) && row.sources != [] && StorableSummary(row.text, row.heading)
    && forall c :: c in row.sources ==> c in ChunkIds(s.chunks)
  }

  lemma StagedNewSummaries(w: World, s: Staging)
    requires IssuedOk(w) && StageOk(w, s)
    ensures var t, t' := w.pg.summaries, StagePg(w.pg, s).summaries;
      forall id | id in t' :: if id in t then t'[id] == t[id] else IsNewSummary(w.pg, s, id, t'[id])
  {
    StagedSummaries(w, s);
    var t, t' := w.pg.summaries, StagePg(w.pg, s).summaries;
    hide StagePg, StageOk, IssuedOk, IsNewSummary;
    forall id | id in t' && id !in t ensures IsNewSummary(w.pg, s, id, t'[id]) {
      StagedNewSummary(w, s, id);
    }
  }

  lemma StagedNewSummary(w: World, s: Staging, id: Id)
    requires IssuedOk(w) && StageOk(w, s) && id in StagePg(w.pg, s).summaries && id !in w.pg.summaries
    ensures IsNewSummary(w.pg, s, id, StagePg(w.pg, s).summaries[id])
  {
    StagedSummaries(w, s);
    hide StagePg, Latest, IssuedOk, SummaryRows, StageOk;
    var i :| 0 <= i < |s.summaryIds| && s.summaryIds[i] == id;
    StagedItem(w, s, i);
    SummaryRowAt(s, Target(w.pg), i);
  }

  lemma StagedItem(w: World, s: Staging, i: nat)
    requires StageOk(w, s) && i < |s.items|
    ensures s.summaryIds[i].Uuid4? && s.items[i].sources != [] && StorableSummary(s.items[i].text, s.items[i].heading)
    ensures forall c :: c in s.items[i].sources ==> c in ChunkIds(s.chunks)
  {
    assert s.summaryIds[i] in s.summaryIds;
  }

  lemma SummaryRowAt(s: Staging, target: nat, i: nat)
    requires i < |s.items|
    ensures SummaryRows(s.items, s.coverage, target)[i] == SummaryRow(target, s.items[i].text, s.items[i].sources, s.coverage, s.items[i].heading)
  {
  }

  lemma NewChunkVersions(w: World, s: Staging)
    requires IssuedOk(w) && StageOk(w, s)
    ensures var t' := StagePg(w.pg, s).chunks;
      forall c | c in ChunkIds(s.chunks) :: c in t' && t'[c].version == Target(w.pg) && c.ChunkId? && c.file == w.pg.file && c.version == Target(w.pg)
  {
    StagedChunks(w, s);
    hide StagePg;
    forall c | c in ChunkIds(s.chunks)
      ensures c.ChunkId? && c.file == w.pg.file && c.version == Target(w.pg) && StagePg(w.pg, s).chunks[c].version == Target(w.pg)
    {
      var i :| 0 <= i < |s.chunks| && ChunkIds(s.chunks)[i] == c;
    }
  }

  lemma StageSummariesOk(pg: Pg, pg': Pg, s: Staging)
    requires SummariesOk(pg) && pg'.versions == pg.versions + [Target(pg)]
    requires forall c | c in pg.chunks :: c in pg'.chunks && pg'.chunks[c] == pg.chunks[c]
    requires forall c | c in ChunkIds(s.chunks) :: c in pg'.chunks && pg'.chunks[c].version == Target(pg)
    requires forall id | id in pg'.summaries :: if id in pg.summaries then pg'.summaries[id] == pg.summaries[id] else IsNewSummary(pg, s, id, pg'.summaries[id])
    ensures SummariesOk(pg')
  {
  }

  lemma StagedContent(w: World, s: Staging, src: Id)
    requires IssuedOk(w) && StageOk(w, s) && src in ChunkIds(s.chunks)
    ensures src in StagePg(w.pg, s).chunks && StagePg(w.pg, s).chunks[src].content == ContentOf(s.chunks, src)
  {
    StagedChunks(w, s);
    FreshKeys(w, s);
    var j :| 0 <= j < |s.chunks| && ChunkIds(s.chunks)[j] == src;
    InsertAll(map[], ChunkIds(s.chunks), s.chunks);
  }

  lemma StagedAnchorOk(w: World, s: Staging, i: nat)
    requires IssuedOk(w) && StageOk(w, s) && SummariesOk(StagePg(w.pg, s)) && i < |s.items|
    ensures AnchorOk(StagePg(w.pg, s), NewAnchorRow(s.chunks, s.items[i], s.summaryIds[i], Target(w.pg)))
  {
    StagedSummaries(w, s);
    StagedContent(w, s, s.items[i].sources[0]);
  }

  /** Anchors stay right as long as their summaries and the texts these point at stay. */
  lemma AnchorsFrame(pg: Pg, pg': Pg, a: AnchorRow)
    requires SummariesOk(pg) && SummariesOk(pg') && AnchorOk(pg, a)
    requires a.summary in pg'.summaries && pg'.summaries[a.summary] == pg.summaries[a.summary]
    requires FirstContent(pg', a.summary) == FirstContent(pg, a.summary)
    ensures AnchorOk(pg', a)
  {
  }

  lemma StageOldAnchor(w: World, s: Staging, row: AnchorRow)
    requires IssuedOk(w) && StageOk(w, s) && SummariesOk(w.pg) && SummariesOk(StagePg(w.pg, s)) && AnchorOk(w.pg, row)
    ensures AnchorOk(StagePg(w.pg, s), row)
  {
    var pg' := StagePg(w.pg, s);
    assert row.summary in pg'.summaries && pg'.summaries[row.summary] == w.pg.summaries[row.summary] by { StagedSummaries(w, s); }
    assert FirstContent(pg', row.summary) == FirstContent(w.pg, row.summary) by { StagedChunks(w, s); }
  }

  lemma StageNewAnchor(w: World, s: Staging, a: Id)
    requires IssuedOk(w) && StageOk(w, s) && SummariesOk(StagePg(w.pg, s)) && a in StagePg(w.pg, s).anchors && a !in w.pg.anchors
    ensures AnchorOk(StagePg(w.pg, s), StagePg(w.pg, s).anchors[a])
  {
    StagedAnchors(w, s);
    hide StagePg, NewAnchorRow, SummariesOk, AnchorOk, IssuedOk;
    var i :| 0 <= i < |s.items| && s.anchorIds[i] == a;
    StagedAnchorOk(w, s, i);
  }

  lemma StageAnchorOk(w: World, s: Staging, a: Id)
    requires IssuedOk(w) && StageOk(w, s) && SummariesOk(w.pg) && AnchorsOk(w.pg) && SummariesOk(StagePg(w.pg, s))
    requires a in StagePg(w.pg, s).anchors
    ensures AnchorOk(StagePg(w.pg, s), StagePg(w.pg, s).anchors[a])
  {
    if a in w.pg.anchors {
      StagedAnchors(w, s);
      StageOldAnchor(w, s, w.pg.anchors[a]);
    } else {
      StageNewAnchor(w, s, a);
    }
  }

  lemma StageAnchorsOk(w: World, s: Staging)
    requires IssuedOk(w) && StageOk(w, s) && SummariesOk(w.pg) && AnchorsOk(w.pg) && SummariesOk(StagePg(w.pg, s))
    ensures AnchorsOk(StagePg(w.pg, s))
  {
    var pg' := StagePg(w.pg, s);
    hide StagePg, SummariesOk, AnchorOk, IssuedOk, StageOk;
    forall a | a in pg'.anchors ensures AnchorOk(pg', pg'.anchors[a]) {
      StageAnchorOk(w, s, a);
    }
  }

  lemma StageIssuedLive(w: World, s: Staging, id: Id)
    requires IssuedOk(w) && StageOk(w, s)
    requires Live(StagePg(w.pg, s), id) || id in StagePg(w.pg, s).anchors
    ensures id in w.issued || id in NewIds(s) || id in s.anchorIds
  {
    if id in StagePg(w.pg, s).chunks {
      StagedChunks(w, s);
    } else if id in StagePg(w.pg, s).summaries {
      StagedSummaries(w, s);
    } else {
      StagedAnchors(w, s);
    }
  }

  lemma StageIssuedChunk(w: World, s: Staging, id: Id)
    requires IssuedOk(w) && StageOk(w, s)
    requires id.ChunkId? && (id in w.issued || id in NewIds(s) || id in s.anchorIds)
    ensures id.file == w.pg.file && id.version <= Target(w.pg)
  {
    FreshKeys(w, s);
    if id in ChunkIds(s.chunks) {
      NewChunkVersions(w, s);
    }
  }

  lemma StageIssued(w: World, s: Staging, w': World)
    requires IssuedOk(w) && StageOk(w, s)
    requires w'.issued == w.issued + Members(NewIds(s)) + Members(s.anchorIds)
    requires w'.pg == StagePg(w.pg, s) && Latest(w'.pg.versions) == Target(w.pg)
    requires forall k :: k in w'.outbox ==> k < w'.next
    ensures IssuedOk(w')
  {
    forall id | Live(w'.pg, id) || id in w'.pg.anchors ensures id in w'.issued {
      StageIssuedLive(w, s, id);
    }
    forall id | id in w'.issued && id.ChunkId? ensures id.file == w'.pg.file && id.version <= Target(w.pg) {
      StageIssuedChunk(w, s, id);
    }
  }

  lemma StageInflight(w: World, s: Staging)
    requires IssuedOk(w) && StageOk(w, s) && PointersOk(w.pg) && ChunksOk(w.pg) && SummariesOk(w.pg)
    ensures var pg' := StagePg(w.pg, s);
      forall id :: id in NewIds(s) <==> Live(pg', id) && VersionOf(pg', id) == Target(w.pg)
  {
    NewChunkVersions(w, s);
    StagedChunks(w, s);
    StagedSummaries(w, s);
    StagedNewSummaries(w, s);
    FreshKeys(w, s);
    var pg' := StagePg(w.pg, s);
  }

  lemma StageRows(w: World, s: Staging)
    requires PointersOk(w.pg) && ChunksOk(w.pg) && SummariesOk(w.pg) && IssuedOk(w) && StageOk(w, s)
    ensures ChunksOk(StagePg(w.pg, s)) && SummariesOk(StagePg(w.pg, s))
  {
    var pg' := StagePg(w.pg, s);
    assert ChunksOk(pg') by {
      StagedNewChunks(w, s);
      StageChunksOk(w.pg, pg', s);
    }
    assert SummariesOk(pg') by {
      StagedChunks(w, s);
      NewChunkVersions(w, s);
      StagedNewSummaries(w, s);
      StageSummariesOk(w.pg, pg', s);
    }
  }

  lemma StageTables(w: World, s: Staging)
    requires TablesOk(w) && StageOk(w, s)
    ensures var pg' := StagePg(w.pg, s);
      PointersOk(pg') && ChunksOk(pg') && SummariesOk(pg') && AnchorsOk(pg') && Latest(pg'.versions) == Target(w.pg)
  {
    StageRows(w, s);
    StagePointers(w.pg, StagePg(w.pg, s));
    StageAnchorsOk(w, s);
    hide ChunksOk, SummariesOk, AnchorsOk, PointersOk, StagePg, Latest;
  }

  lemma StageHistory(w: World, s: Staging)
    requires TablesOk(w) && StageOk(w, s) && Latest(StagePg(w.pg, s).versions) == Target(w.pg)
    ensures IssuedOk(StageWorld(w, s))
  {
    StageIssued(w, s, StageWorld(w, s));
    hide IssuedOk, StageWorld;
  }

  lemma StageFlight(w: World, s: Staging)
    requires TablesOk(w) && StageOk(w, s) && Latest(StagePg(w.pg, s).versions) == Target(w.pg)
    ensures InflightOk(StageWorld(w, s))
  {
    StageInflight(w, s);
    var w' := StageWorld(w, s);
    assert Target(w.pg) in w'.pg.versions;
    assert w'.pg == StagePg(w.pg, s) && w'.inflight == Some(Inflight(Target(w.pg), NewIds(s), false));
    hide StageWorld, StagePg, NewIds, Latest, TablesOk, StageOk;
  }

  lemma StageKeeps(w: World, s: Staging)
    requires TablesOk(w) && w.inflight.None? && StageOk(w, s)
    ensures StoredOk(StageWorld(w, s)) && Latest(StagePg(w.pg, s).versions) == Target(w.pg)
  {
    StageTables(w, s);
    StageHistory(w, s);
    StageFlight(w, s);
    assert StageWorld(w, s).pg == StagePg(w.pg, s);
    hide ChunksOk, SummariesOk, AnchorsOk, PointersOk, IssuedOk, InflightOk, StageWorld, StagePg, Latest, StageOk;
  }

  // ---------- collect ----------

  lemma {:induction false} AtLeastMembers(versions: seq<nat>, t: int)
    ensures forall v :: v in Gc.AtLeast(versions, t) <==> v in versions && v >= t
    ensures Distinct(versions) ==> Distinct(Gc.AtLeast(versions, t))
  {
    if versions != [] {
      var n := |versions| - 1;
      AtLeastMembers(versions[..n], t);
      assert versions == versions[..n] + [versions[n]];
      if Distinct(versions) {
        assert Distinct(versions[..n]);
        assert versions[n] !in versions[..n];
      }
    }
  }

  /** Collection keeps the newest version row, so the next target stays fresh. */
  lemma PurgePointers(pg: Pg, t: int)
    requires PointersOk(pg) && pg.flipped && t <= pg.active.doc
    ensures PointersOk(Gc.PurgePg(pg, t)) && Latest(Gc.PurgePg(pg, t).versions) == Latest(pg.versions)
  {
    AtLeastMembers(pg.versions, t);
    var versions' := Gc.AtLeast(pg.versions, t);
    assert pg.active.doc in versions';
    assert Latest(pg.versions) in versions' && Latest(versions') in pg.versions;
  }

  /** Collection never leaves a retained summary dangling. */
  lemma PurgeRows(pg: Pg, t: int)
    requires ChunksOk(pg) && SummariesOk(pg)
    ensures ChunksOk(Gc.PurgePg(pg, t)) && SummariesOk(Gc.PurgePg(pg, t))
  {
    AtLeastMembers(pg.versions, t);
  }

  lemma PurgeAnchors(pg: Pg, t: int)
    requires SummariesOk(pg) && AnchorsOk(pg) && SummariesOk(Gc.PurgePg(pg, t))
    ensures AnchorsOk(Gc.PurgePg(pg, t))
  {
    var pg' := Gc.PurgePg(pg, t);
    forall a | a in pg'.anchors ensures AnchorOk(pg', pg'.anchors[a]) {
      AnchorsFrame(pg, pg', pg.anchors[a]);
    }
  }

  lemma PurgeInflight(w: World, t: int)
    requires PointersOk(w.pg) && ChunksOk(w.pg) && SummariesOk(w.pg) && InflightOk(w) && t <= w.pg.active.doc && w.pg.flipped
    ensures InflightOk(w.(pg := Gc.PurgePg(w.pg, t)))
  {
    PurgePointers(w.pg, t);
    AtLeastMembers(w.pg.versions, t);
  }

  lemma CollectKeeps(w: World, retain: nat, chunkIds: seq<Id>, summaryIds: seq<Id>)
    requires TablesOk(w) && Enabled(w, Collect(retain, chunkIds, summaryIds))
    ensures var w' := Apply(w, Collect(retain, chunkIds, summaryIds));
      StoredOk(w') && Latest(w'.pg.versions) == Latest(w.pg.versions) && w'.pg.active == w.pg.active
  {
    var t := Gc.Threshold(w.pg, retain);
    if t > 1 {
      PurgePointers(w.pg, t);
      PurgeRows(w.pg, t);
      PurgeAnchors(w.pg, t);
      PurgeInflight(w, t);
    }
  }

  // ---------- flip ----------

  lemma FlipRows(pg: Pg, target: nat)
    requires ChunksOk(pg) && SummariesOk(pg) && target == Latest(pg.versions)
    ensures ChunksOk(FlipPg(pg, target)) && SummariesOk(FlipPg(pg, target))
  {
  }

  lemma FlipAnchors(pg: Pg, target: nat)
    requires SummariesOk(pg) && AnchorsOk(pg) && SummariesOk(FlipPg(pg, target))
    ensures AnchorsOk(FlipPg(pg, target))
  {
    var pg' := FlipPg(pg, target);
    assert pg'.anchors == pg.anchors;
    forall a | a in pg'.anchors ensures AnchorOk(pg', pg'.anchors[a]) {
      FlippedAnchor(pg, target, a);
    }
  }

  lemma FlippedAnchor(pg: Pg, target: nat, a: Id)
    requires SummariesOk(pg) && AnchorsOk(pg) && SummariesOk(FlipPg(pg, target)) && a in pg.anchors
    ensures AnchorOk(FlipPg(pg, target), pg.anchors[a])
  {
    assert AnchorOk(pg, pg.anchors[a]);
    AnchorsFrame(pg, FlipPg(pg, target), pg.anchors[a]);
  }

  lemma FlipKeeps(w: World, oldIds: seq<Id>)
    requires TablesOk(w) && Enabled(w, Flip(oldIds))
    ensures var w' := Apply(w, Flip(oldIds));
      StoredOk(w') && w'.pg.active.doc >= w.pg.active.doc && w'.pg.versions == w.pg.versions
  {
    FlipRows(w.pg, w.inflight.value.target);
    FlipAnchors(w.pg, w.inflight.value.target);
  }

  // ---------- every action ----------

  /** Rewriting an anchor's target keeps its fingerprint. */
  lemma RelocateAnchors(pg: Pg, summary: Id, target: Id)
    requires SummariesOk(pg) && AnchorsOk(pg)
    ensures var pg' := RelocatePg(pg, summary, target);
      (ChunksOk(pg) ==> ChunksOk(pg')) && SummariesOk(pg') && AnchorsOk(pg')
  {
    var pg' := RelocatePg(pg, summary, target);
    assert SummariesOk(pg') && (ChunksOk(pg) ==> ChunksOk(pg'));
    hide Fingerprints, ChunksOk, SummariesOk, AnchorOk;
    forall b | b in pg'.anchors ensures AnchorOk(pg', pg'.anchors[b]) {
      RelocatedAnchor(pg, summary, target, b);
    }
  }

  lemma RelocatedAnchor(pg: Pg, summary: Id, target: Id, b: Id)
    requires SummariesOk(pg) && AnchorsOk(pg) && SummariesOk(RelocatePg(pg, summary, target)) && b in RelocatePg(pg, summary, target).anchors
    ensures AnchorOk(RelocatePg(pg, summary, target), RelocatePg(pg, summary, target).anchors[b])
  {
    assert AnchorOk(pg, pg.anchors[b]);
    AnchorsFrame(pg, RelocatePg(pg, summary, target), pg.anchors[b]);
  }

  lemma RelocateKeeps(w: World, summary: Id, target: Id)
    requires TablesOk(w)
    ensures TablesOk(w.(pg := RelocatePg(w.pg, summary, target)))
  {
    hide ChunksOk, SummariesOk, AnchorsOk;
    RelocateAnchors(w.pg, summary, target);
    LaterTables(w, w.(pg := RelocatePg(w.pg, summary, target)));
  }

  lemma SameRows(w: World, w': World)
    requires TablesOk(w) && w'.pg == w.pg && w'.issued == w.issued && w'.readings == w.readings
    requires forall k :: k in w'.outbox ==> k < w'.next
    requires w'.inflight.None? || (w.inflight.Some? && w'.inflight.value.(cleared := w.inflight.value.cleared) == w.inflight.value)
    ensures TablesOk(w')
  {
  }

  // ---------- tables loaded earlier ----------

  /** One moment of reading is enough to have seen the whole index. */
  lemma SeenNow(readings: set<Reading>, pg: Pg, es: Index)
    requires Reading(pg, es) in readings
    ensures Seen(readings, pg, es)
  {
    var r := Reading(pg, es);
    forall id ensures SeenAt(readings, pg, At(es, id), id) {
      assert r in readings && At(r.es, id) == At(es, id);
    }
  }

  /** What was loaded stays an earlier state of the tables if a row's text never changes, no id is handed out
      twice, and nothing is deleted before the first publish. */
  lemma LaterTables(w: World, w': World)
    requires ReadingsOk(w) && w'.readings == w.readings && w.issued <= w'.issued && ChunksOk(w.pg) && SummariesOk(w.pg)
    requires w'.pg.file == w.pg.file && w'.pg.tenant == w.pg.tenant
    requires forall id | Live(w'.pg, id) && id in w.issued :: Live(w.pg, id) && KeptRow(w.pg, w'.pg, id)
    requires !w'.pg.flipped ==> !w.pg.flipped && w'.pg.active == w.pg.active && forall id | Live(w.pg, id) :: Live(w'.pg, id)
    ensures ReadingsOk(w')
  {
    hide EarlierTables, ChunksOk, SummariesOk, KeptRow;
    forall r | r in w'.readings ensures EarlierTables(w', r.pg) {
      assert EarlierTables(w, r.pg);
      LaterEarlier(w, w', r.pg);
    }
  }

  lemma LaterEarlier(w: World, w': World, pg0: Pg)
    requires EarlierTables(w, pg0) && w.issued <= w'.issued && ChunksOk(w.pg) && SummariesOk(w.pg)
    requires w'.pg.file == w.pg.file && w'.pg.tenant == w.pg.tenant
    requires forall id | Live(w'.pg, id) && id in w.issued :: Live(w.pg, id) && KeptRow(w.pg, w'.pg, id)
    requires !w'.pg.flipped ==> !w.pg.flipped && w'.pg.active == w.pg.active && forall id | Live(w.pg, id) :: Live(w'.pg, id)
    ensures EarlierTables(w', pg0)
  {
    IdKinds(pg0);
    IdKinds(w.pg);
    hide ChunksOk, SummariesOk;
    forall id | Live(pg0, id) && Live(w'.pg, id) ensures KeptRow(pg0, w'.pg, id) {
      assert KeptRow(pg0, w.pg, id) && KeptRow(w.pg, w'.pg, id);
    }
  }

  lemma IdKinds(pg: Pg)
    requires ChunksOk(pg) && SummariesOk(pg)
    ensures forall id | id in pg.chunks :: id.ChunkId?
    ensures forall id | id in pg.summaries :: id.Uuid4?
  {
  }

  lemma StageKeptRows(w: World, s: Staging)
    requires IssuedOk(w) && StageOk(w, s)
    ensures forall id | Live(StagePg(w.pg, s), id) && id in w.issued :: Live(w.pg, id) && KeptRow(w.pg, StagePg(w.pg, s), id)
    ensures forall id | Live(w.pg, id) :: Live(StagePg(w.pg, s), id)
  {
    var pg' := StagePg(w.pg, s);
    hide StagePg, StageOk, IssuedOk, KeptRow, Live;
    forall id
      ensures Live(pg', id) && id in w.issued ==> Live(w.pg, id) && KeptRow(w.pg, pg', id)
      ensures Live(w.pg, id) ==> Live(pg', id)
    {
      StageKeptRow(w, s, id);
    }
  }

  lemma StageKeptRow(w: World, s: Staging, id: Id)
    requires IssuedOk(w) && StageOk(w, s)
    ensures Live(StagePg(w.pg, s), id) && id in w.issued ==> Live(w.pg, id) && KeptRow(w.pg, StagePg(w.pg, s), id)
    ensures Live(w.pg, id) ==> Live(StagePg(w.pg, s), id)
  {
    StagedChunks(w, s);
    StagedSummaries(w, s);
    FreshKeys(w, s);
    hide StagePg, StageOk, IssuedOk;
  }

  lemma StageReadings(w: World, s: Staging)
    requires TablesOk(w) && StageOk(w, s)
    ensures ReadingsOk(StageWorld(w, s))
  {
    var w' := StageWorld(w, s);
    StageKeptRows(w, s);
    assert w'.pg == StagePg(w.pg, s) && w.issued <= w'.issued && w'.readings == w.readings;
    assert w'.pg.flipped == w.pg.flipped && w'.pg.active == w.pg.active && w'.pg.file == w.pg.file && w'.pg.tenant == w.pg.tenant;
    hide StageWorld, StagePg, StageOk, ChunksOk, SummariesOk, AnchorsOk, PointersOk, InflightOk, ReadingsOk;
    LaterTables(w, w');
  }

  lemma FlipReadings(w: World, oldIds: seq<Id>)
    requires TablesOk(w) && Enabled(w, Flip(oldIds))
    ensures ReadingsOk(Apply(w, Flip(oldIds)))
  {
    hide ChunksOk, SummariesOk, AnchorsOk, PointersOk, ReadingsOk, FlipEvents;
    LaterTables(w, Apply(w, Flip(oldIds)));
  }

  /** Before the first publish there is nothing to collect. */
  lemma CollectReadings(w: World, retain: nat, chunkIds: seq<Id>, summaryIds: seq<Id>)
    requires TablesOk(w) && Enabled(w, Collect(retain, chunkIds, summaryIds))
    ensures ReadingsOk(Apply(w, Collect(retain, chunkIds, summaryIds)))
  {
    assert Gc.Threshold(w.pg, retain) > 1 ==> w.pg.flipped;
    hide ChunksOk, SummariesOk, AnchorsOk, PointersOk, ReadingsOk, Gc.DeleteEvents, Gc.AtLeast;
    LaterTables(w, Apply(w, Collect(retain, chunkIds, summaryIds)));
  }

  /** Rows that a reconcile has loaded keep their text for as long as they are there. */
  lemma ReadingsKept(w: World, a: Action)
    requires TablesOk(w) && Enabled(w, a)
    ensures ReadingsOk(Apply(w, a))
  {
    hide PointersOk, ChunksOk, SummariesOk, AnchorsOk, InflightOk;
    match a
    case Stage(s) => StageReadings(w, s);
    case Flip(oldIds) => FlipReadings(w, oldIds);
    case Collect(retain, c, s) => CollectReadings(w, retain, c, s);
    case Relocate(id, target) => RelocateKeeps(w, id, target);
    case Load => LoadReadings(w, Apply(w, a));
    case _ =>
  }

  lemma LoadReadings(w: World, w': World)
    requires TablesOk(w) && w' == w.(readings := w.readings + {Reading(w.pg, w.es)})
    ensures ReadingsOk(w')
  {
    assert EarlierTables(w, w.pg);
    hide ChunksOk, SummariesOk, AnchorsOk, PointersOk, InflightOk, IssuedOk;
    forall r | r in w'.readings ensures EarlierTables(w', r.pg) {
      assert EarlierTables(w, r.pg);
    }
  }

  lemma SameStored(w: World, w': World)
    requires StoredOk(w) && w'.pg == w.pg && w'.issued == w.issued
    requires forall k :: k in w'.outbox ==> k < w'.next
    requires w'.inflight.None? || (w.inflight.Some? && w'.inflight.value.(cleared := w.inflight.value.cleared) == w.inflight.value)
    ensures StoredOk(w')
  {
  }

  /** Actions that leave the rows alone. */
  predicate Idle(a: Action) {
    !a.Stage? && !a.Flip? && !a.Collect? && !a.Relocate?
  }

  lemma IdleKeeps(w: World, a: Action)
    requires StoredOk(w) && Enabled(w, a) && Idle(a)
    ensures StoredOk(Apply(w, a)) && Apply(w, a).pg == w.pg
  {
    assert forall k :: k in w.outbox ==> k < w.next;
    assert forall k :: k in Apply(w, a).outbox ==> k < Apply(w, a).next by { hide StoredOk; IdleOutbox(w, a); }
    hide PointersOk, ChunksOk, SummariesOk, AnchorsOk, IssuedOk, InflightOk;
    SameStored(w, Apply(w, a));
  }

  lemma IdleOutbox(w: World, a: Action)
    requires Enabled(w, a) && Idle(a) && forall k :: k in w.outbox ==> k < w.next
    ensures forall k :: k in Apply(w, a).outbox ==> k < Apply(w, a).next
  {
    hide Publish, Reconcile.RepairEvents, Reconcile.Classifies;
  }

  lemma StoredKept(w: World, a: Action)
    requires TablesOk(w) && Enabled(w, a)
    ensures StoredOk(Apply(w, a)) && Apply(w, a).pg.active.doc >= w.pg.active.doc
    ensures Latest(Apply(w, a).pg.versions) >= Latest(w.pg.versions)
    ensures w.pg.flipped ==> Apply(w, a).pg.flipped
  {
    hide StoredOk, ReadingsOk, Latest;
    if Idle(a) {
      IdleKeeps(w, a);
    } else {
      RowsKept(w, a);
    }
  }

  lemma RowsKept(w: World, a: Action)
    requires TablesOk(w) && Enabled(w, a) && !Idle(a)
    ensures StoredOk(Apply(w, a)) && Apply(w, a).pg.active.doc >= w.pg.active.doc
    ensures Latest(Apply(w, a).pg.versions) >= Latest(w.pg.versions)
    ensures w.pg.flipped ==> Apply(w, a).pg.flipped
  {
    hide StoredOk, ReadingsOk;
    match a
    case Stage(s) => StageKeeps(w, s);
    case Flip(oldIds) => FlipKeeps(w, oldIds);
    case Collect(retain, c, s) => CollectKeeps(w, retain, c, s);
    case Relocate(id, target) => RelocateKeeps(w, id, target);
  }

  lemma TablesKept(w: World, a: Action)
    requires TablesOk(w) && Enabled(w, a)
    ensures TablesOk(Apply(w, a))
    ensures Apply(w, a).pg.active.doc >= w.pg.active.doc
    ensures Latest(Apply(w, a).pg.versions) >= Latest(w.pg.versions)
    ensures w.pg.flipped ==> Apply(w, a).pg.flipped
  {
    hide StoredOk, ReadingsOk, Enabled, Apply, Latest;
    ReadingsKept(w, a);
    StoredKept(w, a);
  }
}
