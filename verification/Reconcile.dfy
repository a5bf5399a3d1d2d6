/** Comparing PostgreSQL with the index and repairing the index (app/indexing/reconcile.py). */
module Reconcile {
  import opened Schema
  import opened Relay
  import opened Tables
  import opened Pipeline
  import Simhash

  /** The drift lists of _classify. */
  datatype Drift = Drift(
    missChunks: seq<Id>, driftChunks: seq<Id>, missSummaries: seq<Id>,
    avail: seq<Id>, retired: seq<Id>, orphans: seq<Id>)

  predicate ActiveChunk(pg: Pg, id: Id) {
    id in pg.chunks && pg.chunks[id].version == pg.active.chunk
  }

  predicate ActiveSummary(pg: Pg, id: Id) {
    id in pg.summaries && pg.summaries[id].version == pg.active.summary
  }

  /** src.get("chunk_version_int") == active_chunk */
  predicate VersionMatches(pg: Pg, d: Doc) {
    d.kind.ChunkDoc? && d.kind.version == pg.active.chunk
  }

  predicate Labelled(pg: Pg, d: Doc) {
    d.file == pg.file && d.tenant == pg.tenant
  }

  function MissChunks(pg: Pg, es: Index): set<Id> {
    set id | id in pg.chunks && ActiveChunk(pg, id) && id !in es
  }

  function DriftChunks(pg: Pg, es: Index): set<Id> {
    set id | id in pg.chunks && ActiveChunk(pg, id) && id in es && !VersionMatches(pg, es[id])
  }

  function MissSummaries(pg: Pg, es: Index): set<Id> {
    set id | id in pg.summaries && ActiveSummary(pg, id) && id !in es
  }

  function AvailDrift(pg: Pg, es: Index): set<Id> {
    set id | id in es && !es[id].visible
             && ((ActiveChunk(pg, id) && VersionMatches(pg, es[id])) || ActiveSummary(pg, id))
  }

  /** Visible documents labelled with the file although they are not active. */
  predicate Leaks(pg: Pg, es: Index, id: Id) {
    id in es && Labelled(pg, es[id]) && !ActiveId(pg, id) && es[id].visible
  }

  function RetiredLeaks(pg: Pg, es: Index): set<Id> {
    set id | id in es && Leaks(pg, es, id) && Live(pg, id)
  }

  function Orphans(pg: Pg, es: Index): set<Id> {
    set id | id in es && Leaks(pg, es, id) && !Live(pg, id)
  }

  ghost predicate Classifies(pg: Pg, es: Index, c: Drift) {
    && Lists(c.missChunks, MissChunks(pg, es)) && Lists(c.driftChunks, DriftChunks(pg, es))
    && Lists(c.missSummaries, MissSummaries(pg, es)) && Lists(c.avail, AvailDrift(pg, es))
    && Lists(c.retired, RetiredLeaks(pg, es)) && Lists(c.orphans, Orphans(pg, es))
  }

  /** Active chunks that the lists name: without document, or with one stamped with another version than the row's. */
  ghost predicate ReportsChunks(pg: Pg, es: Index, c: Drift) {
    && Distinct(c.missChunks) && Distinct(c.driftChunks)
    && (forall id :: id in c.missChunks <==> id in pg.chunks && pg.chunks[id].version == pg.active.chunk && id !in es)
    && (forall id :: id in c.driftChunks <==>
          && id in pg.chunks && pg.chunks[id].version == pg.active.chunk && id in es
          && !(es[id].kind.ChunkDoc? && es[id].kind.version == pg.chunks[id].version))
  }

  /** Active summaries without document, and the hidden documents of active rows, for chunks of the right version only. */
  ghost predicate ReportsHidden(pg: Pg, es: Index, c: Drift) {
    && Distinct(c.missSummaries) && Distinct(c.avail)
    && (forall id :: id in c.missSummaries <==> id in pg.summaries && pg.summaries[id].version == pg.active.summary && id !in es)
    && (forall id :: id in c.avail <==>
          && id in es && !es[id].visible
          && ((id in pg.summaries && pg.summaries[id].version == pg.active.summary)
              || (id in pg.chunks && pg.chunks[id].version == pg.active.chunk
                  && es[id].kind.ChunkDoc? && es[id].kind.version == pg.chunks[id].version)))
  }

  /** Visible documents with the file's label that are of an old row, or of none. */
  ghost predicate ReportsLeaks(pg: Pg, es: Index, c: Drift) {
    && Distinct(c.retired) && Distinct(c.orphans)
    && (forall id :: id in c.retired <==>
          && id in es && es[id].visible && es[id].file == pg.file && es[id].tenant == pg.tenant
          && (id in pg.chunks || id in pg.summaries)
          && !(id in pg.chunks && pg.chunks[id].version == pg.active.chunk)
          && !(id in pg.summaries && pg.summaries[id].version == pg.active.summary))
    && (forall id :: id in c.orphans <==>
          && id in es && es[id].visible && es[id].file == pg.file && es[id].tenant == pg.tenant
          && id !in pg.chunks && id !in pg.summaries)
  }

  /** Which ids each drift list holds, read off the rows and the fields of the documents. */
  ghost predicate Reported(pg: Pg, es: Index, c: Drift) {
    ReportsChunks(pg, es, c) && ReportsHidden(pg, es, c) && ReportsLeaks(pg, es, c)
  }

  lemma ClassifiesChunks(pg: Pg, es: Index, c: Drift)
    ensures Lists(c.missChunks, MissChunks(pg, es)) && Lists(c.driftChunks, DriftChunks(pg, es)) <==> ReportsChunks(pg, es, c)
  {
  }

  lemma ClassifiesHidden(pg: Pg, es: Index, c: Drift)
    ensures Lists(c.missSummaries, MissSummaries(pg, es)) && Lists(c.avail, AvailDrift(pg, es)) <==> ReportsHidden(pg, es, c)
  {
  }

  lemma ClassifiesLeaks(pg: Pg, es: Index, c: Drift)
    ensures Lists(c.retired, RetiredLeaks(pg, es)) && Lists(c.orphans, Orphans(pg, es)) <==> ReportsLeaks(pg, es, c)
  {
  }

  /** Classifying is reporting. */
  lemma ClassifiesIffReported(pg: Pg, es: Index, c: Drift)
    ensures Classifies(pg, es, c) <==> Reported(pg, es, c)
  {
    ClassifiesChunks(pg, es, c);
    ClassifiesHidden(pg, es, c);
    ClassifiesLeaks(pg, es, c);
    hide Lists, ReportsChunks, ReportsHidden, ReportsLeaks;
  }

  const Clean: Drift := Drift([], [], [], [], [], [])

  // ---------- repair ----------

  /** Re-embedding a stored row at its own version; the repaired document must be visible. */
  function RepairChunk(pg: Pg, id: Id): Event
    requires id in pg.chunks
  {
    var row := pg.chunks[id];
    var c := NewChunk(id, row.content, row.hash, Simhash.ToUnsigned(row.sim), row.page, row.order, false, None);
    IndexDoc(id, ChunkSource(c, Some(Embed(row.content)), pg.file, pg.tenant, row.version).(visible := true))
  }

  function RepairSummary(pg: Pg, id: Id): Event
    requires id in pg.summaries
  {
    var row := pg.summaries[id];
    IndexDoc(id, SummarySource(row.text, row.sources, Some(Embed(row.text)), pg.file, pg.tenant, row.coverage).(visible := true))
  }

  /** Summaries with an empty text are not re-published. */
  function NonEmpty(pg: Pg, ids: seq<Id>): (r: seq<Id>)
    requires forall id :: id in ids ==> id in pg.summaries
    ensures forall id :: id in r <==> id in ids && pg.summaries[id].text != ""
  {
    if ids == [] then []
    else
      var n := |ids| - 1;
      assert ids == ids[..n] + [ids[n]];
      NonEmpty(pg, ids[..n]) + if pg.summaries[ids[n]].text == "" then [] else [ids[n]]
  }

  predicate Repairable(pg: Pg, c: Drift) {
    && (forall id :: id in c.missChunks + c.driftChunks ==> id in pg.chunks)
    && (forall id :: id in c.missSummaries ==> id in pg.summaries)
  }

  function Republish(pg: Pg, c: Drift): seq<Event>
    requires Repairable(pg, c)
  {
    var rebuild := c.missChunks + c.driftChunks;
    var sums := NonEmpty(pg, c.missSummaries);
    seq(|rebuild|, i requires 0 <= i < |rebuild| && rebuild[i] in pg.chunks => RepairChunk(pg, rebuild[i]))
    + seq(|sums|, i requires 0 <= i < |sums| && sums[i] in pg.summaries => RepairSummary(pg, sums[i]))
  }

  function RepairEvents(pg: Pg, c: Drift): seq<Event>
    requires Repairable(pg, c)
  {
    Republish(pg, c)
    + (if c.avail != [] then [SetAvailable(c.avail, true)] else [])
    + (if c.retired != [] then [SetAvailable(c.retired, false)] else [])
    + (if c.orphans != [] then [Delete(c.orphans)] else [])
  }
}
