/** The two transactions of ingest_file (app/ingest/pipeline.py): staging a hidden version together with
    its index events, and flipping the active pointers together with the visibility events. */
module Pipeline {
  import opened Schema
  import opened Relay
  import opened Tables
  import Simhash

  datatype NewChunk = NewChunk(id: Id, content: string, hash: Sha256, simhash: int, page: int, order: nat, skip: bool, section: Option<string>)

  datatype SummaryItem = SummaryItem(text: string, sources: seq<Id>, heading: string, vec: Option<Vec>)

  /** What ingest_file hands to its first transaction; the ids of summaries and anchors are fresh uuids. */
  datatype Staging = Staging(
    chunks: seq<NewChunk>, vecs: seq<Option<Vec>>, items: seq<SummaryItem>,
    summaryIds: seq<Id>, anchorIds: seq<Id>, coverage: real)

  // ---------- documents ----------

  function ChunkSource(c: NewChunk, vec: Option<Vec>, file: string, tenant: string, version: nat): Doc {
    Doc(c.content, vec, file, tenant, ChunkDoc(c.page, c.order, version, Simhash.ToSigned(c.simhash)), false)
  }

  function SummarySource(text: string, sources: seq<Id>, vec: Option<Vec>, file: string, tenant: string, coverage: real): Doc {
    Doc(text, vec, file, tenant, SummaryDoc(sources, coverage), false)
  }

  // ---------- transaction A: stage ----------

  function Target(pg: Pg): nat {
    Latest(pg.versions) + 1
  }

  function ChunkIds(chunks: seq<NewChunk>): (r: seq<Id>)
    ensures |r| == |chunks|
  {
    seq(|chunks|, i requires 0 <= i < |chunks| => chunks[i].id)
  }

  function ChunkRows(chunks: seq<NewChunk>, target: nat): (r: seq<ChunkRow>)
    ensures |r| == |chunks|
  {
    seq(|chunks|, i requires 0 <= i < |chunks| => NewChunkRow(chunks[i], target))
  }

  function NewChunkRow(c: NewChunk, target: nat): ChunkRow {
    ChunkRow(target, c.order, c.content, c.page, c.hash, Simhash.ToSigned(c.simhash), false)
  }

  function SummaryRows(items: seq<SummaryItem>, coverage: real, target: nat): (r: seq<SummaryRow>)
    ensures |r| == |items|
  {
    seq(|items|, i requires 0 <= i < |items| => SummaryRow(target, items[i].text, items[i].sources, coverage, items[i].heading))
  }

  /** chunk_by_id.get(id, {}).get("content", "") */
  function ContentOf(chunks: seq<NewChunk>, id: Id): string {
    var m := Bind(ChunkIds(chunks), chunks);
    if id in m then m[id].content else ""
  }

  function NewAnchorRow(chunks: seq<NewChunk>, it: SummaryItem, summary: Id, target: nat): AnchorRow {
    var tgt := if it.sources != [] then Some(it.sources[0]) else None;
    var content := if it.sources != [] then ContentOf(chunks, it.sources[0]) else "";
    AnchorRow(summary, it.heading, target, tgt,
              if content != "" then Some(Sha256(content)) else None,
              if content != "" then Some(Simhash.SimhashHex(content)) else None, Valid)
  }

  function AnchorRows(s: Staging, target: nat): (r: seq<AnchorRow>)
    requires |s.summaryIds| == |s.items|
    ensures |r| == |s.items|
  {
    seq(|s.items|, i requires 0 <= i < |s.items| => NewAnchorRow(s.chunks, s.items[i], s.summaryIds[i], target))
  }

  function NewIds(s: Staging): seq<Id> {
    ChunkIds(s.chunks) + s.summaryIds
  }

  predicate Shaped(s: Staging) {
    |s.vecs| == |s.chunks| && |s.summaryIds| == |s.items| == |s.anchorIds|
  }

  /** No character column takes U+0000. */
  predicate StorableText(text: string) {
    '\U{0}' !in text
  }

  type Plain = t: string | StorableText(t) witness ""

  /** kb_chunk.section_path and kb_anchor.section_path are VARCHAR(512). */
  const SECTION_LIMIT: nat := 512

  /** kb_anchor.section_path is NOT NULL, and an empty heading is inserted as NULL. */
  predicate StorableHeading(heading: string) {
    0 < |heading| <= SECTION_LIMIT && StorableText(heading)
  }

  predicate StorableChunk(c: NewChunk) {
    StorableText(c.content) && (c.section.Some? ==> |c.section.value| <= SECTION_LIMIT && StorableText(c.section.value))
  }

  predicate StorableSummary(text: string, heading: string) {
    StorableText(text) && StorableHeading(heading)
  }

  predicate StorableChunks(chunks: seq<NewChunk>) {
    forall i | 0 <= i < |chunks| :: StorableChunk(chunks[i])
  }

  predicate StorableItems(items: seq<SummaryItem>) {
    forall i | 0 <= i < |items| :: StorableSummary(items[i].text, items[i].heading)
  }

  function StagePg(pg: Pg, s: Staging): Pg
    requires Shaped(s)
  {
    var target := Target(pg);
    pg.(chunks := pg.chunks + Bind(ChunkIds(s.chunks), ChunkRows(s.chunks, target)),
        summaries := pg.summaries + Bind(s.summaryIds, SummaryRows(s.items, s.coverage, target)),
        anchors := pg.anchors + Bind(s.anchorIds, AnchorRows(s, target)),
        versions := pg.versions + [target])
  }

  function StageEvents(pg: Pg, s: Staging): seq<Event>
    requires Shaped(s)
  {
    var target := Target(pg);
    seq(|s.chunks|, i requires 0 <= i < |s.chunks| =>
      IndexDoc(s.chunks[i].id, ChunkSource(s.chunks[i], s.vecs[i], pg.file, pg.tenant, target)))
    + seq(|s.items|, i requires 0 <= i < |s.items| =>
      IndexDoc(s.summaryIds[i], SummarySource(s.items[i].text, s.items[i].sources, s.items[i].vec, pg.file, pg.tenant, s.coverage)))
  }

  // ---------- transaction B: flip ----------

  function FlippedRow(row: ChunkRow, target: nat): ChunkRow {
    if row.version == target then row.(available := true)
    else if row.version < target then row.(available := false)
    else row
  }

  function FlipPg(pg: Pg, target: nat): Pg {
    pg.(active := Pointers(target, target, target, target), flipped := true,
        chunks := map id | id in pg.chunks :: FlippedRow(pg.chunks[id], target))
  }

  /** Ids of all live rows below a version. */
  function Below(pg: Pg, version: int): set<Id> {
    ChunksBelow(pg, version) + SummariesBelow(pg, version)
  }

  function ChunksBelow(pg: Pg, version: int): set<Id> {
    set id | id in pg.chunks && pg.chunks[id].version < version
  }

  function SummariesBelow(pg: Pg, version: int): set<Id> {
    set id | id in pg.summaries && pg.summaries[id].version < version
  }

  function FlipEvents(newIds: seq<Id>, oldIds: seq<Id>): seq<Event> {
    (if newIds != [] then [SetAvailable(newIds, true)] else [])
    + (if oldIds != [] then [SetAvailable(oldIds, false)] else [])
  }
}
