/** What a garbage collection promises (app/indexing/gc.py): it reclaims space and nothing else. */
module Collection {
  import opened Schema
  import opened Relay
  import opened Tables
  import opened Pipeline
  import opened Protocol
  import opened TableInvariant
  import opened IndexInvariant
  import opened Gc
  import Reconcile
  import Runs

  datatype Counts = Counts(chunks: nat, summaries: nat, anchors: nat, versions: nat)

  function VersionsBelow(versions: seq<nat>, t: int): nat {
    if versions == [] then 0
    else VersionsBelow(versions[..|versions| - 1], t) + if versions[|versions| - 1] < t then 1 else 0
  }

  /** What a dry run reports: one count per table. */
  function Purgeable(pg: Pg, t: int): Counts {
    Counts(|ChunksBelow(pg, t)|, |SummariesBelow(pg, t)|, |AnchorsBelow(pg, t)|, VersionsBelow(pg.versions, t))
  }

  /** Row counts of the four tables. */
  function Rows(pg: Pg): Counts {
    Counts(|pg.chunks|, |pg.summaries|, |pg.anchors|, |pg.versions|)
  }

  lemma RemoveKeys<K, V>(m: map<K, V>, ks: set<K>)
    requires ks <= m.Keys
    ensures |m - ks| == |m| - |ks|
  {
    assert (m - ks).Keys == m.Keys - ks;
    assert |m.Keys - ks| == |m.Keys| - |ks|;
    assert |(m - ks).Keys| == |m - ks| && |m.Keys| == |m|;
  }

  lemma {:induction false} VersionsLeft(versions: seq<nat>, t: int)
    ensures |AtLeast(versions, t)| + VersionsBelow(versions, t) == |versions|
    ensures VersionsBelow(AtLeast(versions, t), t) == 0
  {
    if versions != [] {
      var n := |versions| - 1;
      VersionsLeft(versions[..n], t);
      var kept := AtLeast(versions[..n], t);
      if versions[n] >= t {
        assert AtLeast(versions, t) == kept + [versions[n]];
        assert (kept + [versions[n]])[..|kept|] == kept;
      } else {
        assert AtLeast(versions, t) == kept;
      }
    }
  }

  /** Deleting the summaries cascades to no anchor that was not deleted already. */
  lemma NoCascade(pg: Pg, t: int)
    requires SummariesOk(pg) && AnchorsOk(pg)
    ensures PurgePg(pg, t).anchors == pg.anchors - AnchorsBelow(pg, t)
  {
    forall a | a in pg.anchors && a !in AnchorsBelow(pg, t) ensures pg.anchors[a].summary !in SummariesBelow(pg, t) {
      assert AnchorOk(pg, pg.anchors[a]);
    }
  }

  /** Each table loses exactly the rows a dry run projects, and a second collection would find none. */
  lemma PurgeDeletesProjection(pg: Pg, t: int)
    requires SummariesOk(pg) && AnchorsOk(pg)
    ensures var pg', p := PurgePg(pg, t), Purgeable(pg, t);
      && Rows(pg').chunks == Rows(pg).chunks - p.chunks && Rows(pg').summaries == Rows(pg).summaries - p.summaries
      && Rows(pg').anchors == Rows(pg).anchors - p.anchors && Rows(pg').versions == Rows(pg).versions - p.versions
    ensures Purgeable(PurgePg(pg, t), t) == Counts(0, 0, 0, 0)
  {
    NoCascade(pg, t);
    VersionsLeft(pg.versions, t);
    PurgeCounts(pg, t);
    NothingBelow(pg, t);
    hide SummariesOk, AnchorsOk, ChunksBelow, SummariesBelow, AnchorsBelow, AtLeast, VersionsBelow;
  }

  lemma PurgeCounts(pg: Pg, t: int)
    ensures |pg.chunks - ChunksBelow(pg, t)| == |pg.chunks| - |ChunksBelow(pg, t)|
    ensures |pg.summaries - SummariesBelow(pg, t)| == |pg.summaries| - |SummariesBelow(pg, t)|
    ensures |pg.anchors - AnchorsBelow(pg, t)| == |pg.anchors| - |AnchorsBelow(pg, t)|
  {
    assert ChunksBelow(pg, t) <= pg.chunks.Keys && SummariesBelow(pg, t) <= pg.summaries.Keys && AnchorsBelow(pg, t) <= pg.anchors.Keys;
    hide ChunksBelow, SummariesBelow, AnchorsBelow;
    RemoveKeys(pg.chunks, ChunksBelow(pg, t));
    RemoveKeys(pg.summaries, SummariesBelow(pg, t));
    RemoveKeys(pg.anchors, AnchorsBelow(pg, t));
  }

  lemma NothingBelow(pg: Pg, t: int)
    ensures var pg' := PurgePg(pg, t);
      ChunksBelow(pg', t) == {} && SummariesBelow(pg', t) == {} && AnchorsBelow(pg', t) == {} && pg'.versions == AtLeast(pg.versions, t)
  {
    hide AtLeast;
  }

  // ---------- what readers see ----------

  function AvailableChunks(pg: Pg): set<Id> {
    set id | id in pg.chunks && pg.chunks[id].available
  }

  function VisibleDocs(pg: Pg, es: Index): set<Id> {
    set id | id in es && Reconcile.Labelled(pg, es[id]) && es[id].visible
  }

  /** Draining deletions removes documents they name and changes no other. */
  lemma {:induction false} DrainDeletions(es: Index, outbox: Outbox, rows: seq<nat>, calls: seq<nat>, id: Id)
    requires |calls| == |rows| && (forall k :: k in rows ==> k in outbox && outbox[k].event.Delete?)
    ensures var es' := Drain(es, outbox, rows, calls, MAX_ATTEMPTS).es;
      At(es', id) == At(es, id) || (At(es', id) == None && exists k :: k in rows && Mentions(outbox[k].event, id))
  {
    if rows != [] {
      var n := |rows| - 1;
      assert rows == rows[..n] + [rows[n]];
      assert rows[n] in rows;
      DrainDeletions(es, outbox, rows[..n], calls[..n], id);
      DrainFrame(es, outbox, rows[..n], calls[..n], MAX_ATTEMPTS);
      var q := Drain(es, outbox, rows[..n], calls[..n], MAX_ATTEMPTS);
      PublishBetween(q.outbox[rows[n]].event, q.es, calls[n]);
    }
  }

  /** A collection leaves the visible set unchanged: in the tables, in the index when it commits, and in the
      index during and after its drain, whatever fails. */
  lemma CollectionInvisible(ws: seq<World>, actions: seq<Action>, i: nat, retain: nat, chunkIds: seq<Id>, summaryIds: seq<Id>, rows: seq<nat>, calls: seq<nat>)
    requires Run(ws, actions) && Orderly(ws, actions) && i <= |actions|
    requires Enabled(ws[i], Collect(retain, chunkIds, summaryIds))
    requires var w := Apply(ws[i], Collect(retain, chunkIds, summaryIds));
      |calls| == |rows| && forall k :: k in rows ==> Open(w.outbox, k)
    ensures var w := Apply(ws[i], Collect(retain, chunkIds, summaryIds));
      && AvailableChunks(w.pg) == AvailableChunks(ws[i].pg)
      && VisibleDocs(w.pg, w.es) == VisibleDocs(ws[i].pg, ws[i].es)
      && VisibleDocs(w.pg, Drain(w.es, w.outbox, rows, calls, MAX_ATTEMPTS).es) == VisibleDocs(ws[i].pg, ws[i].es)
  {
    var a := Collect(retain, chunkIds, summaryIds);
    var w0, w := ws[i], Apply(ws[i], a);
    Runs.RunSync(ws, actions, i);
    TablesKept(w0, a);
    SyncKept(w0, a);
    CollectKeepsAvailable(w0, retain, chunkIds, summaryIds);
    CollectOpens(w0, retain, chunkIds, summaryIds);
    hide Run, Orderly, Enabled, Apply, TablesOk, Sync, Traced, SameFile, AvailableChunks, VisibleDocs, Drain;
    DrainInvisible(w, rows, calls);
    SameVisible(w0.pg, w.pg, w.es);
  }

  /** A drain of deletions leaves the visible documents as they are. */
  lemma DrainInvisible(w: World, rows: seq<nat>, calls: seq<nat>)
    requires Sync(w, false) && |calls| == |rows| && forall k :: k in rows ==> Open(w.outbox, k)
    requires forall k: nat :: Open(w.outbox, k) ==> w.outbox[k].event.Delete?
    ensures VisibleDocs(w.pg, Drain(w.es, w.outbox, rows, calls, MAX_ATTEMPTS).es) == VisibleDocs(w.pg, w.es)
  {
    var es' := Drain(w.es, w.outbox, rows, calls, MAX_ATTEMPTS).es;
    forall id ensures id in VisibleDocs(w.pg, es') <==> id in VisibleDocs(w.pg, w.es) {
      DrainDeletions(w.es, w.outbox, rows, calls, id);
      if At(es', id) != At(w.es, id) {
        var k :| k in rows && Mentions(w.outbox[k].event, id);
        assert SafeOf(w.pg, false)(id, At(w.es, id));
      }
    }
  }

  lemma SameVisible(pg: Pg, pg': Pg, es: Index)
    requires SameFile(pg, pg')
    ensures VisibleDocs(pg', es) == VisibleDocs(pg, es)
  {
  }

  lemma CollectKeepsAvailable(w: World, retain: nat, chunkIds: seq<Id>, summaryIds: seq<Id>)
    requires TablesOk(w) && Enabled(w, Collect(retain, chunkIds, summaryIds))
    ensures var w' := Apply(w, Collect(retain, chunkIds, summaryIds));
      w'.es == w.es && SameFile(w.pg, w'.pg) && AvailableChunks(w'.pg) == AvailableChunks(w.pg)
  {
    var t := Threshold(w.pg, retain);
    if t > 1 {
      forall id | id in w.pg.chunks && w.pg.chunks[id].available ensures id !in ChunksBelow(w.pg, t) { }
    }
  }

  lemma CollectOpens(w: World, retain: nat, chunkIds: seq<Id>, summaryIds: seq<Id>)
    requires TablesOk(w) && Enabled(w, Collect(retain, chunkIds, summaryIds))
    ensures var w' := Apply(w, Collect(retain, chunkIds, summaryIds));
      forall k: nat :: Open(w'.outbox, k) ==> w'.outbox[k].event.Delete?
  {
    var t := Threshold(w.pg, retain);
    CollectOutbox(w, retain, chunkIds, summaryIds);
    if t > 1 {
      OnlyDeletes(w, chunkIds + summaryIds);
    } else {
      assert forall k: nat :: !Open(w.outbox, k);
    }
    hide TablesOk, Enabled, Apply, DeleteEvents, Enqueue, Quiet;
  }

  /** A collection's events are its only change of the outbox. */
  lemma CollectOutbox(w: World, retain: nat, chunkIds: seq<Id>, summaryIds: seq<Id>)
    requires Enabled(w, Collect(retain, chunkIds, summaryIds))
    ensures Apply(w, Collect(retain, chunkIds, summaryIds)).outbox ==
      if Threshold(w.pg, retain) <= 1 then w.outbox else Enqueue(w.outbox, w.next, w.clock, DeleteEvents(chunkIds + summaryIds))
  {
    hide PurgePg, DeleteEvents, Enqueue, Lists;
  }

  lemma OnlyDeletes(w: World, ids: seq<Id>)
    requires Quiet(w) && forall k :: k in w.outbox ==> k < w.next
    ensures var outbox := Enqueue(w.outbox, w.next, w.clock, DeleteEvents(ids));
      forall k: nat :: Open(outbox, k) ==> outbox[k].event.Delete?
  {
    var events := DeleteEvents(ids);
    DeleteEventsShape(ids);
    assert forall i | 0 <= i < |events| :: IsBatch(events[i], ids);
    assert forall k: nat :: !Open(w.outbox, k);
    hide DeleteEvents, Enqueue, Quiet;
    OnlyNew(w.outbox, w.next, w.clock, events);
  }

  /** With nothing open before a commit, exactly its events are open after it. */
  lemma OnlyNew(outbox: Outbox, next: nat, now: nat, events: seq<Event>)
    requires (forall k :: k in outbox ==> k < next) && forall k: nat :: !Open(outbox, k)
    ensures forall k: nat :: Open(Enqueue(outbox, next, now, events), k) ==>
      next <= k < next + |events| && Enqueue(outbox, next, now, events)[k].event == events[k - next]
  {
    EnqueueOpen(outbox, next, now, events);
    hide Enqueue;
  }

  // ---------- what is retained ----------

  /** A row of this version is older than the retained ones: at least `retain` versions behind the active one. */
  predicate Old(pg: Pg, retain: nat, version: nat) {
    version + retain <= pg.active.doc
  }

  ghost function YoungChunks(pg: Pg, retain: nat): map<Id, ChunkRow> {
    map id | id in pg.chunks && !Old(pg, retain, pg.chunks[id].version) :: pg.chunks[id]
  }

  ghost function YoungSummaries(pg: Pg, retain: nat): map<Id, SummaryRow> {
    map id | id in pg.summaries && !Old(pg, retain, pg.summaries[id].version) :: pg.summaries[id]
  }

  ghost function YoungAnchors(pg: Pg, retain: nat): map<Id, AnchorRow> {
    map a | a in pg.anchors && !Old(pg, retain, pg.anchors[a].version) :: pg.anchors[a]
  }

  /** pg' is pg without the rows of old versions, and nothing else is missing or changed. */
  ghost predicate Retains(pg: Pg, pg': Pg, retain: nat) {
    && pg'.chunks == YoungChunks(pg, retain) && pg'.summaries == YoungSummaries(pg, retain) && pg'.anchors == YoungAnchors(pg, retain)
    && (forall v :: v in pg'.versions <==> v in pg.versions && !Old(pg, retain, v))
    && pg' == pg.(chunks := pg'.chunks, summaries := pg'.summaries, anchors := pg'.anchors, versions := pg'.versions)
  }

  /** The numbers of rows of old versions. */
  ghost predicate CountsOld(pg: Pg, retain: nat, n: Counts) {
    && n.chunks == |set id | id in pg.chunks && Old(pg, retain, pg.chunks[id].version)|
    && n.summaries == |set id | id in pg.summaries && Old(pg, retain, pg.summaries[id].version)|
    && n.anchors == |set a | a in pg.anchors && Old(pg, retain, pg.anchors[a].version)|
    && n.versions == |set v | v in pg.versions && Old(pg, retain, v)|
  }

  lemma OldBelow(pg: Pg, retain: nat, version: nat)
    requires LockstepOk(pg.active)
    ensures Old(pg, retain, version) <==> version < Threshold(pg, retain)
  {
  }

  lemma PurgeRetains(pg: Pg, retain: nat)
    requires SummariesOk(pg) && AnchorsOk(pg) && LockstepOk(pg.active)
    ensures Retains(pg, PurgePg(pg, Threshold(pg, retain)), retain)
  {
    var t := Threshold(pg, retain);
    forall v: nat ensures Old(pg, retain, v) <==> v < t { OldBelow(pg, retain, v); }
    hide Old, Threshold, LockstepOk;
    NoCascade(pg, t);
    hide SummariesOk, AnchorsOk;
    AtLeastMembers(pg.versions, t);
    hide AtLeast, YoungChunks, YoungSummaries, YoungAnchors;
    YoungAre(pg, retain, t);
  }

  lemma YoungAre(pg: Pg, retain: nat, t: int)
    requires forall v: nat :: Old(pg, retain, v) <==> v < t
    ensures YoungChunks(pg, retain) == pg.chunks - ChunksBelow(pg, t)
    ensures YoungSummaries(pg, retain) == pg.summaries - SummariesBelow(pg, t)
    ensures YoungAnchors(pg, retain) == pg.anchors - AnchorsBelow(pg, t)
  {
    hide Old;
  }

  /** With at most `retain` versions up to the active one there is nothing old. */
  lemma NothingOld(pg: Pg, retain: nat)
    requires PointersOk(pg) && ChunksOk(pg) && SummariesOk(pg) && AnchorsOk(pg) && Threshold(pg, retain) <= 1
    ensures Retains(pg, pg, retain)
  {
    forall v: nat ensures Old(pg, retain, v) ==> v < 1 { }
    assert forall v :: v in pg.versions ==> v >= 1;
    hide Old, Threshold, PointersOk;
    VersionsStored(pg);
    hide ChunksOk, SummariesOk, AnchorsOk;
    AllYoung(pg, retain);
    hide YoungChunks, YoungSummaries, YoungAnchors;
  }

  lemma AllYoung(pg: Pg, retain: nat)
    requires forall id | id in pg.chunks :: !Old(pg, retain, pg.chunks[id].version)
    requires forall id | id in pg.summaries :: !Old(pg, retain, pg.summaries[id].version)
    requires forall a | a in pg.anchors :: !Old(pg, retain, pg.anchors[a].version)
    ensures YoungChunks(pg, retain) == pg.chunks && YoungSummaries(pg, retain) == pg.summaries && YoungAnchors(pg, retain) == pg.anchors
  {
    hide Old;
  }

  /** Rows are of versions in the table of versions. */
  lemma VersionsStored(pg: Pg)
    requires ChunksOk(pg) && SummariesOk(pg) && AnchorsOk(pg)
    ensures forall id | id in pg.chunks :: pg.chunks[id].version in pg.versions
    ensures forall id | id in pg.summaries :: pg.summaries[id].version in pg.versions
    ensures forall a | a in pg.anchors :: pg.anchors[a].version in pg.versions
  {
    Runs.AnchorVersions(pg);
    hide AnchorsOk;
  }

  /** A collection keeps every version that it is told to retain, and nothing older: a row of version v is gone
      if and only if v + retain <= active, in each of the four tables; all others stay as they are. */
  lemma CollectRetains(w: World, retain: nat, chunkIds: seq<Id>, summaryIds: seq<Id>)
    requires TablesOk(w) && Enabled(w, Collect(retain, chunkIds, summaryIds))
    ensures Retains(w.pg, Apply(w, Collect(retain, chunkIds, summaryIds)).pg, retain)
  {
    CollectedTables(w, retain, chunkIds, summaryIds);
    hide ChunksOk, SummariesOk, AnchorsOk, IssuedOk, InflightOk, ReadingsOk, Retains, PurgePg, Threshold, Apply, Old;
    if Threshold(w.pg, retain) <= 1 {
      NothingOld(w.pg, retain);
    } else {
      PurgeRetains(w.pg, retain);
    }
  }

  lemma CollectedTables(w: World, retain: nat, chunkIds: seq<Id>, summaryIds: seq<Id>)
    requires Enabled(w, Collect(retain, chunkIds, summaryIds))
    ensures var t := Threshold(w.pg, retain);
      Apply(w, Collect(retain, chunkIds, summaryIds)).pg == if t <= 1 then w.pg else PurgePg(w.pg, t)
  {
    hide PurgePg, DeleteEvents, Enqueue;
  }

  lemma {:induction false} VersionsCount(versions: seq<nat>, t: int)
    requires Distinct(versions)
    ensures VersionsBelow(versions, t) == |set v | v in versions && v < t|
  {
    if versions == [] {
      assert (set v | v in versions && v < t) == {};
    } else {
      var n := |versions| - 1;
      VersionsCount(versions[..n], t);
      assert versions == versions[..n] + [versions[n]];
      var front := set v | v in versions[..n] && v < t;
      assert versions[n] !in versions[..n];
      assert (set v | v in versions && v < t) == if versions[n] < t then front + {versions[n]} else front;
    }
  }

  /** What a dry run projects and an apply reports: the numbers of old rows. */
  lemma ProjectionCounts(pg: Pg, retain: nat)
    requires LockstepOk(pg.active) && Distinct(pg.versions)
    ensures CountsOld(pg, retain, Purgeable(pg, Threshold(pg, retain)))
  {
    var t := Threshold(pg, retain);
    VersionsCount(pg.versions, t);
    forall v: nat ensures Old(pg, retain, v) <==> v < t { OldBelow(pg, retain, v); }
    hide Old, Threshold, VersionsBelow;
    assert ChunksBelow(pg, t) == set id | id in pg.chunks && Old(pg, retain, pg.chunks[id].version);
    assert SummariesBelow(pg, t) == set id | id in pg.summaries && Old(pg, retain, pg.summaries[id].version);
    assert AnchorsBelow(pg, t) == set a | a in pg.anchors && Old(pg, retain, pg.anchors[a].version);
    assert (set v | v in pg.versions && v < t) == set v | v in pg.versions && Old(pg, retain, v);
  }

  // ---------- deletions that can be delivered ----------

  function Slice(ids: seq<Id>, i: nat): seq<Id>
    requires i * DELETE_BATCH < |ids|
  {
    ids[i * DELETE_BATCH..if (i + 1) * DELETE_BATCH <= |ids| then (i + 1) * DELETE_BATCH else |ids|]
  }

  lemma SliceShift(ids: seq<Id>, i: nat)
    requires i > 0 && i * DELETE_BATCH < |ids|
    ensures (i - 1) * DELETE_BATCH < |ids[DELETE_BATCH..]| && Slice(ids[DELETE_BATCH..], i - 1) == Slice(ids, i)
  {
    var rest, lo := ids[DELETE_BATCH..], (i - 1) * DELETE_BATCH;
    assert i * DELETE_BATCH == lo + DELETE_BATCH && (i + 1) * DELETE_BATCH == lo + DELETE_BATCH + DELETE_BATCH;
    var hi := if lo + DELETE_BATCH <= |rest| then lo + DELETE_BATCH else |rest|;
    assert hi + DELETE_BATCH == if (i + 1) * DELETE_BATCH <= |ids| then (i + 1) * DELETE_BATCH else |ids|;
    DropSlice(ids, DELETE_BATCH, lo, hi);
  }

  lemma DropSlice<T>(s: seq<T>, k: nat, lo: nat, hi: nat)
    requires k <= |s| && lo <= hi <= |s| - k
    ensures s[k..][lo..hi] == s[lo + k..hi + k]
  {
  }

  lemma DeleteSplit(ids: seq<Id>)
    requires |ids| > DELETE_BATCH
    ensures DeleteEvents(ids) == [Delete(ids[..DELETE_BATCH])] + DeleteEvents(ids[DELETE_BATCH..])
  {
  }

  /** The deletions are the slices of the ids. */
  lemma {:induction false} DeleteEventAt(ids: seq<Id>, i: nat)
    requires i < |DeleteEvents(ids)|
    ensures i * DELETE_BATCH < |ids| && DeleteEvents(ids)[i] == Delete(Slice(ids, i))
    decreases |ids|
  {
    if |ids| > DELETE_BATCH && i > 0 {
      var rest := ids[DELETE_BATCH..];
      DeleteSplit(ids);
      DeleteEventAt(rest, i - 1);
      assert i * DELETE_BATCH == (i - 1) * DELETE_BATCH + DELETE_BATCH;
      SliceShift(ids, i);
    } else if |ids| > DELETE_BATCH {
      DeleteSplit(ids);
      assert Slice(ids, 0) == ids[..DELETE_BATCH];
    } else {
      assert i == 0 && Slice(ids, 0) == ids;
    }
  }

  /** n batches of at most 500 are needed for this many ids. */
  predicate Batches(n: nat, total: nat) {
    (n - 1) * 500 < total <= n * 500
  }

  lemma {:induction false} DeleteBatchCount(ids: seq<Id>)
    ensures Batches(|DeleteEvents(ids)|, |ids|)
    decreases |ids|
  {
    if |ids| > DELETE_BATCH {
      DeleteSplit(ids);
      DeleteBatchCount(ids[DELETE_BATCH..]);
    }
  }

  /** The deletions of a collection name every document once, and all of them are there. */
  lemma DeletionsRemovable(es: Index, outbox: Outbox, next: nat, now: nat, ids: seq<Id>)
    requires (forall k :: k in outbox ==> k < next) && (forall k: nat :: !Open(outbox, k))
    requires Distinct(ids) && forall id :: id in ids ==> id in es
    ensures Removable(es, Enqueue(outbox, next, now, DeleteEvents(ids)))
  {
    var events := DeleteEvents(ids);
    forall i | 0 <= i < |events| ensures events[i].Delete? && Deletable(es, events[i].ids) {
      DeleteEventAt(ids, i);
    }
    forall i, j, id | 0 <= i < |events| && 0 <= j < |events| && Mentions(events[i], id) && Mentions(events[j], id) ensures i == j {
      SlicesDisjoint(ids, i, j, id);
    }
    hide DeleteEvents, Enqueue, Removable, Deletable;
    DeletionsOnce(es, outbox, next, now, events);
  }

  lemma DeletionsOnce(es: Index, outbox: Outbox, next: nat, now: nat, events: seq<Event>)
    requires (forall k :: k in outbox ==> k < next) && (forall k: nat :: !Open(outbox, k))
    requires forall i | 0 <= i < |events| :: events[i].Delete? && Deletable(es, events[i].ids)
    requires forall i, j, id | 0 <= i < |events| && 0 <= j < |events| && Mentions(events[i], id) && Mentions(events[j], id) :: i == j
    ensures Removable(es, Enqueue(outbox, next, now, events))
  {
    var outbox' := Enqueue(outbox, next, now, events);
    EnqueueOpen(outbox, next, now, events);
    hide Enqueue, Deletable;
    forall k: nat, id | Open(outbox', k) && outbox'[k].event.Delete? && id in outbox'[k].event.ids ensures DeletedOnce(outbox', k, id) {
      assert Mentions(events[k - next], id);
      forall j: nat | Open(outbox', j) && outbox'[j].event.Delete? && id in outbox'[j].event.ids ensures j == k {
        assert Mentions(events[j - next], id);
      }
    }
  }

  lemma SlicesDisjoint(ids: seq<Id>, i: nat, j: nat, id: Id)
    requires Distinct(ids) && i < |DeleteEvents(ids)| && j < |DeleteEvents(ids)|
    requires Mentions(DeleteEvents(ids)[i], id) && Mentions(DeleteEvents(ids)[j], id)
    ensures i == j
  {
    DeleteEventAt(ids, i);
    DeleteEventAt(ids, j);
    hide DeleteEvents, Slice;
    var p := SlicePlace(ids, i, id);
    var q := SlicePlace(ids, j, id);
    assert p == q;
  }

  /** Where in the listing an id of a slice stands. */
  lemma SlicePlace(ids: seq<Id>, i: nat, id: Id) returns (p: nat)
    requires i * DELETE_BATCH < |ids| && id in Slice(ids, i)
    ensures p < |ids| && ids[p] == id && i * DELETE_BATCH <= p < (i + 1) * DELETE_BATCH
  {
    var x :| 0 <= x < |Slice(ids, i)| && Slice(ids, i)[x] == id;
    p := i * DELETE_BATCH + x;
  }
}
