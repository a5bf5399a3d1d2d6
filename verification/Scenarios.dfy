/** Runs in which a repair that was right when its reconcile read the tables does harm when it is committed. */
module Scenarios {
  import opened Schema
  import opened Relay
  import opened Tables
  import opened Pipeline
  import opened Protocol
  import opened TableInvariant
  import opened IndexInvariant
  import opened LateCommit
  import Collection
  import Gc
  import Reconcile
  import ReconcileConvergence
  import Runs
  import Simhash

  // ---------- states that orderly runs reach ----------

  ghost predicate RunTo(ws: seq<World>, actions: seq<Action>, w: World) {
    Run(ws, actions) && Orderly(ws, actions) && ws[|actions|] == w
  }

  ghost predicate Reached(w: World) {
    exists ws, actions :: RunTo(ws, actions, w)
  }

  lemma Next(w: World, a: Action)
    requires Reached(w) && Enabled(w, a) && Proper(w, a)
    ensures Reached(Apply(w, a))
  {
    hide Apply, Enabled, Proper, Initial;
    var ws, actions :| RunTo(ws, actions, w);
    StepsSnoc(ws, actions, a);
    var ws', actions' := ws + [Apply(w, a)], actions + [a];
    forall i | 0 <= i < |actions'| ensures Proper(ws'[i], actions'[i]) {
      if i < |actions| { assert Proper(ws[i], actions[i]); }
    }
    assert RunTo(ws', actions', Apply(w, a));
  }

  lemma ReachedOk(w: World)
    requires Reached(w)
    ensures TablesOk(w) && SyncOk(w)
  {
    var ws, actions :| RunTo(ws, actions, w);
    Runs.RunSync(ws, actions, |actions|);
  }

  lemma Start(file: string) returns (w: World)
    ensures Reached(w) && w == World(Pg(file, "t", map[], map[], map[], [], Pointers(1, 1, 1, 1), false), map[], 0, 0, map[], None, {}, true, {})
  {
    w := World(Pg(file, "t", map[], map[], map[], [], Pointers(1, 1, 1, 1), false), map[], 0, 0, map[], None, {}, true, {});
    assert RunTo([w], [], w);
  }

  // ---------- ingests of one chunk ----------

  function Chunk(file: string, version: nat, text: string): NewChunk {
    NewChunk(ChunkId(file, version, 0), text, Sha256(text), Simhash.Simhash(text), 1, 0, false, None)
  }

  function Row(version: nat, text: string): ChunkRow {
    NewChunkRow(Chunk("", version, text), version)
  }

  function HiddenDoc(pg: Pg, text: string): Doc {
    ChunkSource(Chunk(pg.file, Target(pg), text), Some(Embed(text)), pg.file, pg.tenant, Target(pg))
  }

  function OneChunk(pg: Pg, text: string): Staging {
    Staging([Chunk(pg.file, Target(pg), text)], [Some(Embed(text))], [], [], [], 0.0)
  }

  lemma BindOne(id: Id, row: ChunkRow)
    ensures Bind([id], [row]) == map[id := row]
  {
  }

  lemma OneChunkPg(pg: Pg, text: string)
    ensures var s, t := OneChunk(pg, text), Target(pg);
      && StagePg(pg, s) == pg.(chunks := pg.chunks[ChunkId(pg.file, t, 0) := Row(t, text)], versions := pg.versions + [t])
      && StageEvents(pg, s) == [IndexDoc(ChunkId(pg.file, t, 0), HiddenDoc(pg, text))] && NewIds(s) == [ChunkId(pg.file, t, 0)]
  {
    OneChunkRows(pg, text);
    OneChunkEvents(pg, text);
    hide Row, Latest, HiddenDoc, Simhash.Simhash, StageEvents, NewIds, ChunkIds, ChunkRows, SummaryRows, AnchorRows, Target;
  }

  lemma OneChunkRows(pg: Pg, text: string)
    ensures var s, t := OneChunk(pg, text), Target(pg);
      && Bind(ChunkIds(s.chunks), ChunkRows(s.chunks, t)) == map[ChunkId(pg.file, t, 0) := Row(t, text)]
      && Bind(s.summaryIds, SummaryRows(s.items, s.coverage, t)) == map[] && Bind(s.anchorIds, AnchorRows(s, t)) == map[]
  {
    var s, t := OneChunk(pg, text), Target(pg);
    hide Latest, Simhash.Simhash, Target;
    assert ChunkIds(s.chunks) == [ChunkId(pg.file, t, 0)] && ChunkRows(s.chunks, t) == [Row(t, text)];
    BindOne(ChunkId(pg.file, t, 0), Row(t, text));
  }

  lemma OneChunkEvents(pg: Pg, text: string)
    ensures var s, t := OneChunk(pg, text), Target(pg);
      && StageEvents(pg, s) == [IndexDoc(ChunkId(pg.file, t, 0), HiddenDoc(pg, text))] && NewIds(s) == [ChunkId(pg.file, t, 0)]
  {
    var s, t := OneChunk(pg, text), Target(pg);
    hide Latest, Simhash.Simhash, Target;
    assert ChunkIds(s.chunks) == [ChunkId(pg.file, t, 0)];
  }

  lemma StageOneOk(w: World, text: Plain)
    ensures StageOk(w, OneChunk(w.pg, text))
  {
    hide Simhash.Simhash;
  }

  /** Staging one chunk and delivering its document. */
  lemma StageOne(w: World, text: Plain) returns (w': World)
    requires Reached(w) && w.inflight.None? && Quiet(w)
    ensures var t := Target(w.pg); var id := ChunkId(w.pg.file, t, 0);
      && Reached(w') && Quiet(w') && w'.inflight == Some(Inflight(t, [id], false)) && w'.readings == w.readings
      && w'.pg == w.pg.(chunks := w.pg.chunks[id := Row(t, text)], versions := w.pg.versions + [t])
      && w'.es == w.es[id := HiddenDoc(w.pg, text)]
  {
    var s, t := OneChunk(w.pg, text), Target(w.pg);
    StageOneOk(w, text);
    var v := Apply(w, Stage(s));
    StagedWorld(w, text);
    hide Reached, StageOk, Enqueue, StageWorld, HiddenDoc, Row, Quiet, OneChunk, Target;
    Next(w, Stage(s));
    StagedOne(w, v, ChunkId(w.pg.file, t, 0), HiddenDoc(w.pg, text));
    var a := Attempt(w.next, 1, true);
    assert Enabled(v, a) && Proper(v, a);
    Next(v, a);
    w' := Apply(v, a);
  }

  lemma StagedWorld(w: World, text: string)
    requires Reached(w) && Enabled(w, Stage(OneChunk(w.pg, text)))
    ensures var t := Target(w.pg); var id := ChunkId(w.pg.file, t, 0); var v := Apply(w, Stage(OneChunk(w.pg, text)));
      && (forall k :: k in w.outbox ==> k < w.next)
      && v.outbox == Enqueue(w.outbox, w.next, w.clock, [IndexDoc(id, HiddenDoc(w.pg, text))]) && v.es == w.es && v.readings == w.readings
      && v.pg == w.pg.(chunks := w.pg.chunks[id := Row(t, text)], versions := w.pg.versions + [t])
      && v.inflight == Some(Inflight(t, [id], false))
  {
    NextFree(w);
    OneChunkPg(w.pg, text);
    hide Reached, StagePg, StageEvents, NewIds, Enqueue, StageOk, HiddenDoc, Row, ExactVectors, Target;
  }

  lemma NextFree(w: World)
    requires Reached(w)
    ensures forall k :: k in w.outbox ==> k < w.next
  {
    ReachedOk(w);
  }

  /** The one event of that transaction, and its delivery. */
  lemma StagedOne(w: World, v: World, id: Id, source: Doc)
    requires Quiet(w) && (forall k :: k in w.outbox ==> k < w.next)
    requires v.outbox == Enqueue(w.outbox, w.next, w.clock, [IndexDoc(id, source)]) && v.es == w.es
    ensures Open(v.outbox, w.next) && var w' := AttemptWorld(v, w.next, 1, true);
      Quiet(w') && w'.es == w.es[id := source] && w'.pg == v.pg && w'.inflight == v.inflight && w'.readings == v.readings
  {
    EnqueueOpen(w.outbox, w.next, w.clock, [IndexDoc(id, source)]);
    hide Enqueue;
    assert forall k: nat :: !Open(w.outbox, k);
    assert [IndexDoc(id, source)][0] == IndexDoc(id, source);
    assert v.outbox[w.next + 0].event == IndexDoc(id, source);
  }

  lemma PassBarrier(w: World) returns (w': World)
    requires Reached(w) && w.inflight.Some? && Quiet(w)
    ensures Reached(w') && w' == w.(inflight := Some(w.inflight.value.(cleared := true)))
  {
    Next(w, Barrier);
    w' := Apply(w, Barrier);
  }

  lemma FlipNow(w: World) returns (w': World)
    requires Reached(w) && Cleared(w) && Quiet(w)
    ensures Reached(w') && w'.pg == FlipPg(w.pg, w.inflight.value.target) && w'.es == w.es && w'.inflight.None? && w'.readings == w.readings
    ensures Removable(w'.es, w'.outbox)
  {
    var oldIds := ListOf(Below(w.pg, w.inflight.value.target));
    NextFree(w);
    hide Below, Lists, FlipPg, Enqueue, Reached;
    Next(w, Flip(oldIds));
    w' := Apply(w, Flip(oldIds));
    var events := FlipEvents(w.inflight.value.ids, oldIds);
    assert forall i | 0 <= i < |events| :: !events[i].Delete?;
    hide FlipEvents;
    QuietRemovable(w.es, w.outbox, w.next, w.clock, events);
  }

  /** With nothing open before, a commit without deletions leaves nothing that can be stuck on a missing document. */
  lemma QuietRemovable(es: Index, outbox: Outbox, next: nat, now: nat, events: seq<Event>)
    requires (forall k :: k in outbox ==> k < next) && (forall k: nat :: !Open(outbox, k)) && forall i | 0 <= i < |events| :: !events[i].Delete?
    ensures Removable(es, Enqueue(outbox, next, now, events))
  {
    hide Enqueue;
    EnqueueRemovable(es, outbox, next, now, events);
  }

  lemma ReachedUnwedged(w: World)
    requires Reached(w)
    ensures Unwedged(w.es, w.outbox)
  {
    ReachedOk(w);
  }

  /** Delivering whatever is open. */
  lemma {:induction false} Settle(w: World) returns (w': World)
    requires Reached(w) && Removable(w.es, w.outbox)
    ensures Reached(w') && Quiet(w') && w'.pg == w.pg && w'.inflight == w.inflight && w'.readings == w.readings && w'.issued == w.issued
    decreases |Unpublished(w.outbox)|
  {
    hide Reached, Applicable, Shown, Unwedged, Removable, Enabled, Apply;
    if Unpublished(w.outbox) == {} {
      Runs.NothingUnpublished(w.outbox);
      w' := w;
    } else {
      var k :| k in Unpublished(w.outbox);
      ReachedUnwedged(w);
      StuckKind(w.es, w.outbox, k);
      var v := Deliver(w, k);
      assert Proper(w, Delivery(w, k));
      Next(w, Delivery(w, k));
      assert Unpublished(v.outbox) == Unpublished(w.outbox) - {k};
      w' := Settle(v);
    }
  }

  /** In a quiet state of an orderly run the index matches the tables. */
  lemma QuietDoc(w: World, id: Id)
    requires Reached(w) && Quiet(w)
    ensures Live(w.pg, id) ==> id in w.es && Faithful(w.pg, false, id, w.es[id])
    ensures Live(w.pg, id) && w.pg.flipped ==> w.es[id].visible == ActiveId(w.pg, id)
    ensures id in w.issued && !Live(w.pg, id) ==> id !in w.es
  {
    ReachedOk(w);
    assert SafeOf(w.pg, false)(id, At(w.es, id)) && GoodOf(w.pg)(id, At(w.es, id));
    hide TablesOk, Sync;
  }

  /** Publishing a chunk: just after the flip, and with everything delivered. */
  lemma PublishOne(w: World, text: Plain) returns (flipped: World, settled: World)
    requires Reached(w) && w.inflight.None? && Quiet(w)
    ensures var t := Target(w.pg); var id := ChunkId(w.pg.file, t, 0);
      && flipped.pg == FlipPg(w.pg.(chunks := w.pg.chunks[id := Row(t, text)], versions := w.pg.versions + [t]), t)
      && flipped.es == w.es[id := HiddenDoc(w.pg, text)]
    ensures Reached(flipped) && flipped.inflight.None? && flipped.readings == w.readings && Removable(flipped.es, flipped.outbox)
    ensures Reached(settled) && settled.inflight.None? && Quiet(settled) && settled.pg == flipped.pg && settled.readings == flipped.readings
  {
    hide Target, FlipPg, Row, HiddenDoc, Reached, Removable;
    var staged := StageOne(w, text);
    var cleared := PassBarrier(staged);
    flipped := FlipNow(cleared);
    settled := Settle(flipped);
  }

  // ---------- two published versions ----------

  /** A file of one chunk per version, published up to version v. */
  ghost predicate Published(pg: Pg, file: string, texts: seq<string>) {
    && pg.file == file && pg.tenant == "t" && pg.summaries == map[] && pg.anchors == map[] && pg.flipped
    && pg.active == Pointers(|texts|, |texts|, |texts|, |texts|) && pg.versions == Numbers(|texts|)
    && (forall id :: id in pg.chunks <==> id.ChunkId? && id.file == file && 1 <= id.version <= |texts| && id.order == 0)
    && forall v | 1 <= v <= |texts| :: pg.chunks[ChunkId(file, v, 0)] == Row(v, texts[v - 1]).(available := v == |texts|)
  }

  /** 1, 2, ..., n */
  function Numbers(n: nat): (r: seq<nat>)
    ensures |r| == n
  {
    seq(n, i requires 0 <= i < n => i + 1)
  }

  lemma {:induction false} LatestNumber(n: nat)
    ensures Latest(Numbers(n)) == n && Numbers(n + 1) == Numbers(n) + [n + 1]
  {
    if n > 0 {
      LatestNumber(n - 1);
      LatestSnoc(Numbers(n - 1), n);
    }
  }

  lemma PublishedNext(pg: Pg, file: string, texts: seq<string>, text: string, pg': Pg)
    requires (texts == [] && pg == Pg(file, "t", map[], map[], map[], [], Pointers(1, 1, 1, 1), false)) || Published(pg, file, texts)
    requires var t := Target(pg); pg' == FlipPg(pg.(chunks := pg.chunks[ChunkId(pg.file, t, 0) := Row(t, text)], versions := pg.versions + [t]), t)
    ensures Target(pg) == |texts| + 1 && Published(pg', file, texts + [text])
  {
    var n := |texts|;
    assert texts == [] ==> Numbers(0) == [];
    TargetNumber(pg, n);
    LatestNumber(n);
    hide Target, Latest, Numbers, Row;
    forall id ensures id in pg'.chunks <==> id.ChunkId? && id.file == file && 1 <= id.version <= n + 1 && id.order == 0 {
      assert id in pg'.chunks <==> id in pg.chunks || id == ChunkId(file, n + 1, 0);
    }
    forall v | 1 <= v <= n + 1 ensures pg'.chunks[ChunkId(file, v, 0)] == Row(v, (texts + [text])[v - 1]).(available := v == n + 1) {
      var id := ChunkId(file, v, 0);
      RowVersion(v, (texts + [text])[v - 1]);
      assert v <= n ==> id in pg.chunks && pg.chunks[id] == Row(v, texts[v - 1]).(available := v == n);
      assert pg'.chunks[id] == FlippedRow(if v == n + 1 then Row(v, text) else pg.chunks[id], n + 1);
    }
  }

  lemma RowVersion(v: nat, text: string)
    ensures Row(v, text).version == v
  {
  }

  lemma TargetNumber(pg: Pg, n: nat)
    requires pg.versions == Numbers(n)
    ensures Target(pg) == n + 1
  {
    LatestNumber(n);
  }

  /** From any published state the next version can be published. */
  lemma PublishNext(w: World, file: string, texts: seq<string>, text: Plain) returns (flipped: World, settled: World)
    requires Reached(w) && w.inflight.None? && Quiet(w) && Published(w.pg, file, texts)
    ensures Reached(flipped) && flipped.inflight.None? && flipped.readings == w.readings && Published(flipped.pg, file, texts + [text])
    ensures flipped.es == w.es[ChunkId(file, |texts| + 1, 0) := HiddenDoc(w.pg, text)] && Removable(flipped.es, flipped.outbox)
    ensures Reached(settled) && settled.inflight.None? && Quiet(settled) && settled.pg == flipped.pg && settled.readings == flipped.readings
  {
    flipped, settled := PublishOne(w, text);
    PublishedNext(w.pg, file, texts, text, flipped.pg);
  }

  lemma PublishFirst(file: string, text: Plain) returns (w: World)
    ensures Reached(w) && w.inflight.None? && Quiet(w) && Published(w.pg, file, [text])
  {
    var w0 := Start(file);
    assert Quiet(w0);
    var flipped;
    flipped, w := PublishOne(w0, text);
    PublishedNext(w0.pg, file, [], text, w.pg);
    assert [] + [text] == [text];
  }

  /** What a reconcile finds between the flip to version 2 and the delivery of its events: the new chunk is still
      hidden and the old one still visible. */
  function Found(file: string): Reconcile.Drift {
    Reconcile.Clean.(avail := [ChunkId(file, 2, 0)], retired := [ChunkId(file, 1, 0)])
  }

  lemma FoundThere(pg: Pg, es: Index, file: string, a: string, b: string)
    requires Published(pg, file, [a, b])
    requires ChunkId(file, 1, 0) in es && es[ChunkId(file, 1, 0)].visible && Reconcile.Labelled(pg, es[ChunkId(file, 1, 0)])
    requires ChunkId(file, 2, 0) in es && !es[ChunkId(file, 2, 0)].visible && Reconcile.VersionMatches(pg, es[ChunkId(file, 2, 0)])
    requires forall id | id in es && !Live(pg, id) && Reconcile.Labelled(pg, es[id]) :: !es[id].visible
    ensures Reconcile.Classifies(pg, es, Found(file))
  {
    TwoRows(pg, file, a, b);
    hide Published;
    TwoChunksFound(pg, es, ChunkId(file, 1, 0), ChunkId(file, 2, 0));
  }

  lemma TwoRows(pg: Pg, file: string, a: string, b: string)
    requires Published(pg, file, [a, b])
    ensures pg.summaries == map[] && pg.active.chunk == 2 && pg.active.summary == 2
    ensures forall id :: id in pg.chunks <==> id == ChunkId(file, 1, 0) || id == ChunkId(file, 2, 0)
    ensures pg.chunks[ChunkId(file, 1, 0)].version == 1 && pg.chunks[ChunkId(file, 2, 0)].version == 2
  {
    hide Simhash.Simhash, Numbers;
  }

  lemma TwoChunksFound(pg: Pg, es: Index, c1: Id, c2: Id)
    requires pg.summaries == map[] && pg.active.chunk == 2 && pg.active.summary == 2 && c1 != c2
    requires forall id :: id in pg.chunks <==> id == c1 || id == c2
    requires pg.chunks[c1].version == 1 && pg.chunks[c2].version == 2
    requires c1 in es && es[c1].visible && Reconcile.Labelled(pg, es[c1])
    requires c2 in es && !es[c2].visible && Reconcile.VersionMatches(pg, es[c2])
    requires forall id | id in es && !Live(pg, id) && Reconcile.Labelled(pg, es[id]) :: !es[id].visible
    ensures Reconcile.Classifies(pg, es, Reconcile.Clean.(avail := [c2], retired := [c1]))
  {
    assert Reconcile.MissChunks(pg, es) == {} == Reconcile.DriftChunks(pg, es);
    assert Reconcile.MissSummaries(pg, es) == {} == Reconcile.Orphans(pg, es);
    assert Reconcile.AvailDrift(pg, es) == {c2} && Reconcile.RetiredLeaks(pg, es) == {c1};
  }

  /** A reconcile has loaded version 2 and classified the index; then everything outstanding is delivered. */
  lemma ReadThenSettle(file: string, a: Plain, b: Plain) returns (w: World, pg0: Pg, seen: Index)
    ensures Reached(w) && w.inflight.None? && Quiet(w) && Published(w.pg, file, [a, b]) && pg0 == w.pg
    ensures Seen(w.readings, pg0, seen) && Reconcile.Classifies(pg0, seen, Found(file))
  {
    var w2 := BetweenFlipAndDelivery(file, a, b);
    pg0, seen := w2.pg, w2.es;
    SeenNow(Apply(w2, Load).readings, pg0, seen);
    hide Published, Reconcile.Classifies, Seen, Reached, Found, Removable;
    Next(w2, Load);
    var w3 := Apply(w2, Load);
    w := Settle(w3);
  }

  lemma BetweenFlipAndDelivery(file: string, a: Plain, b: Plain) returns (w: World)
    ensures Reached(w) && w.inflight.None? && Published(w.pg, file, [a, b]) && Reconcile.Classifies(w.pg, w.es, Found(file))
    ensures Removable(w.es, w.outbox)
  {
    var w1 := PublishFirst(file, a);
    FirstVisible(w1, file, a);
    var settled;
    w, settled := PublishNext(w1, file, [a], b);
    assert [a] + [b] == [a, b];
    ReachedOk(w);
    HiddenDead(w);
    SecondHidden(w1.pg, file, a, b, w.pg);
    hide TablesOk, SyncOk, Published, Reconcile.Classifies, HiddenDoc, Reached, Removable;
    FoundThere(w.pg, w.es, file, a, b);
  }

  lemma HiddenDead(w: World)
    requires Sync(w, false)
    ensures forall id | id in w.es && !Live(w.pg, id) && Reconcile.Labelled(w.pg, w.es[id]) :: !w.es[id].visible
  {
    forall id | id in w.es && !Live(w.pg, id) && Reconcile.Labelled(w.pg, w.es[id]) ensures !w.es[id].visible {
      assert SafeOf(w.pg, false)(id, At(w.es, id));
    }
  }

  lemma FirstVisible(w: World, file: string, a: string)
    requires Reached(w) && Quiet(w) && Published(w.pg, file, [a])
    ensures var id := ChunkId(file, 1, 0); id in w.es && w.es[id].visible && Reconcile.Labelled(w.pg, w.es[id])
  {
    QuietDoc(w, ChunkId(file, 1, 0));
  }

  lemma SecondHidden(pg1: Pg, file: string, a: string, b: string, pg: Pg)
    requires Published(pg1, file, [a]) && Published(pg, file, [a, b])
    ensures !HiddenDoc(pg1, b).visible && Reconcile.VersionMatches(pg, HiddenDoc(pg1, b))
    ensures pg.file == pg1.file && pg.tenant == pg1.tenant
  {
    LatestNumber(1);
  }

  lemma FoundEvents(pg: Pg, file: string)
    ensures Reconcile.Repairable(pg, Found(file))
    ensures Reconcile.RepairEvents(pg, Found(file)) == [SetAvailable([ChunkId(file, 2, 0)], true), SetAvailable([ChunkId(file, 1, 0)], false)]
  {
  }

  // ---------- a flip in between ----------

  /** While the reconcile was at work, version 3 was published. Its commit and a drain that answers make version 2
      visible beside version 3, with nothing unpublished. */
  lemma FlipBetween(file: string, a: Plain, b: Plain, d: Plain)
    returns (w: World, pg0: Pg, seen: Index, ws: seq<World>, actions: seq<Action>)
    ensures Reached(w) && Published(w.pg, file, [a, b, d]) && Published(pg0, file, [a, b])
    ensures Continues(w, Commit(pg0, seen, Found(file)), ws, actions)
    ensures var w' := ws[|actions|]; w'.pg == w.pg && Unpublished(w'.outbox) == {} && !Runs.Agrees(w')
  {
    hide Published, Reconcile.Classifies, Seen, Reached, Misfit, Continues, Enabled, Runs.Agrees, HiddenDoc;
    var w2, flipped;
    w2, pg0, seen := ReadThenSettle(file, a, b);
    flipped, w := PublishNext(w2, file, [a, b], d);
    assert [a, b] + [d] == [a, b, d];
    StaleFacts(w, file, [a, b, d]);
    CommitEnabled(w, pg0, seen, Found(file));
    ws, actions := StaleShows(w, pg0, seen, file);
  }

  lemma CommitEnabled(w: World, pg0: Pg, seen: Index, c: Reconcile.Drift)
    requires Seen(w.readings, pg0, seen) && Reconcile.Classifies(pg0, seen, c)
    ensures Enabled(w, Commit(pg0, seen, c))
  {
  }

  /** Version 2 is neither gone nor active any more. */
  lemma StaleFacts(w: World, file: string, texts: seq<string>)
    requires Reached(w) && Quiet(w) && Published(w.pg, file, texts) && |texts| > 2
    ensures w.pg.flipped && ChunkId(file, 1, 0) in w.es && ChunkId(file, 2, 0) in w.es && forall k :: k in w.outbox ==> k < w.next
    ensures Misfit(w.pg, SetAvailable([ChunkId(file, 2, 0)], true), ChunkId(file, 2, 0))
  {
    QuietDoc(w, ChunkId(file, 1, 0));
    QuietDoc(w, ChunkId(file, 2, 0));
    ReachedOk(w);
  }

  lemma StaleShows(w: World, pg0: Pg, seen: Index, file: string) returns (ws: seq<World>, actions: seq<Action>)
    requires Quiet(w) && w.pg.flipped && ChunkId(file, 1, 0) in w.es && ChunkId(file, 2, 0) in w.es
    requires (forall k :: k in w.outbox ==> k < w.next) && Enabled(w, Commit(pg0, seen, Found(file)))
    requires Misfit(w.pg, SetAvailable([ChunkId(file, 2, 0)], true), ChunkId(file, 2, 0))
    ensures Continues(w, Commit(pg0, seen, Found(file)), ws, actions)
    ensures var w' := ws[|actions|]; w'.pg == w.pg && Unpublished(w'.outbox) == {} && !Runs.Agrees(w')
  {
    var c1, c2, a0 := ChunkId(file, 1, 0), ChunkId(file, 2, 0), Commit(pg0, seen, Found(file));
    FoundEvents(pg0, file);
    CommitStep(w, pg0, seen, Found(file));
    var events := Reconcile.RepairEvents(pg0, Found(file));
    var v := Emit(w, events);
    Committed(w, events, 0);
    PresentUnwedged(w, events, c1, c2);
    NoDeletions(w, events);
    hide Removable, Enabled, Reconcile.RepairEvents, Misfit, Steps, Attempts, Continues, EndsWell, Emit, Quiet;
    ws, actions := MisfitHarms([w, v], [a0], w.next, c2);
    ContinuesWith(w, a0, [w, v], [a0], ws, actions);
    Runs.MatchesAgrees(ws[|actions|]);
  }

  lemma NoDeletions(w: World, events: seq<Event>)
    requires Quiet(w) && (forall k :: k in w.outbox ==> k < w.next) && forall i | 0 <= i < |events| :: !events[i].Delete?
    ensures Removable(Emit(w, events).es, Emit(w, events).outbox)
  {
    hide Enqueue;
    QuietRemovable(w.es, w.outbox, w.next, w.clock, events);
  }

  lemma PresentUnwedged(w: World, events: seq<Event>, c1: Id, c2: Id)
    requires Quiet(w) && (forall k :: k in w.outbox ==> k < w.next) && c1 in w.es && c2 in w.es
    requires events == [SetAvailable([c2], true), SetAvailable([c1], false)]
    ensures Unwedged(Emit(w, events).es, Emit(w, events).outbox)
  {
    assert forall k: nat :: !Open(w.outbox, k);
    hide Enqueue;
    EnqueueUnwedged(w.es, w.outbox, w.next, w.clock, events);
  }

  // ---------- a collection in between ----------

  /** A visibility event for a deleted row whose document is gone. */
  ghost predicate Stuck(w: World, k: nat, id: Id) {
    && Open(w.outbox, k) && w.outbox[k].event.SetAvailable? && id in w.outbox[k].event.ids
    && id in w.issued && !Live(w.pg, id) && id !in w.es && k < w.next
    && forall j: nat :: Open(w.outbox, j) && w.outbox[j].event.IndexDoc? ==> w.outbox[j].event.id != id
  }

  /** Nothing ever frees it: the attempt fails whatever the index answers, and orderly steps leave it as it is. */
  lemma StuckStays(w: World, a: Action, k: nat, id: Id)
    requires TablesOk(w) && Stuck(w, k, id) && Enabled(w, a) && Proper(w, a)
    ensures Stuck(Apply(w, a), k, id) && forall calls: nat :: !Publish(w.outbox[k].event, w.es, calls).1
  {
    forall calls: nat ensures !Publish(w.outbox[k].event, w.es, calls).1 { PublishBetween(w.outbox[k].event, w.es, calls); }
    assert !a.Collect? && !a.Barrier?;
    hide TablesOk, Publish, Enabled, Suits, Reconcile.RepairEvents;
    StuckStep(w, a, k, id);
  }

  lemma StuckStep(w: World, a: Action, k: nat, id: Id)
    requires TablesOk(w) && Stuck(w, k, id) && Enabled(w, a) && Proper(w, a) && !a.Collect? && !a.Barrier?
    ensures Stuck(Apply(w, a), k, id)
  {
    hide TablesOk, Publish, StoredOk;
    match a
    case Stage(s) => StuckStage(w, s, k, id);
    case Attempt(j, calls, committed) => StuckAttempt(w, j, calls, committed, k, id);
    case Flip(oldIds) => StuckFlip(w, oldIds, k, id);
    case Commit(pg, _, c) => StuckCommitted(w, pg, c, k, id);
    case Foreign(es') => assert At(es', id) == At(w.es, id);
    case Abort =>
    case Load =>
    case Look(_) =>
    case Prune(_) =>
    case Relocate(_, _) =>
  }

  lemma StuckEmit(w: World, w': World, events: seq<Event>, k: nat, id: Id)
    requires Stuck(w, k, id) && (forall j :: j in w.outbox ==> j < w.next)
    requires w'.outbox == Enqueue(w.outbox, w.next, w.clock, events) && w'.next == w.next + |events|
    requires w'.es == w.es && w.issued <= w'.issued && (Live(w'.pg, id) ==> Live(w.pg, id))
    requires forall i | 0 <= i < |events| && events[i].IndexDoc? :: events[i].id != id
    ensures Stuck(w', k, id)
  {
    EnqueueOpen(w.outbox, w.next, w.clock, events);
    hide Enqueue, Live;
  }

  lemma StuckStage(w: World, s: Staging, k: nat, id: Id)
    requires TablesOk(w) && Stuck(w, k, id) && Enabled(w, Stage(s))
    ensures Stuck(Apply(w, Stage(s)), k, id)
  {
    FreshKeys(w, s);
    StageKeptRows(w, s);
    StagedIds(w, s);
    NewIdsMembers(s);
    var w' := StageWorld(w, s);
    var events := StageEvents(w.pg, s);
    assert w'.pg == StagePg(w.pg, s) && w'.outbox == Enqueue(w.outbox, w.next, w.clock, events) && w'.next == w.next + |events| && w'.es == w.es;
    assert id !in NewIds(s);
    hide StageWorld, StagePg, StageEvents, StageOk, Stuck, Live, NewIds;
    forall i | 0 <= i < |events| && events[i].IndexDoc? ensures events[i].id != id {
      StageEventAt(w.pg, s, i);
    }
    StuckEmit(w, w', events, k, id);
  }

  lemma StuckAttempt(w: World, j: nat, calls: nat, committed: bool, k: nat, id: Id)
    requires Stuck(w, k, id) && Open(w.outbox, j)
    ensures Stuck(AttemptWorld(w, j, calls, committed), k, id)
  {
    var e := w.outbox[j].event;
    PublishBetween(e, w.es, calls);
    var es' := Publish(e, w.es, calls).0;
    assert id !in es' by {
      assert At(es', id) == At(w.es, id) || (Mentions(e, id) && At(es', id) == Effect(e, At(w.es, id)));
    }
    hide Publish;
  }

  lemma StuckFlip(w: World, oldIds: seq<Id>, k: nat, id: Id)
    requires TablesOk(w) && Stuck(w, k, id) && Enabled(w, Flip(oldIds))
    ensures Stuck(Apply(w, Flip(oldIds)), k, id)
  {
    var events, w' := FlipEvents(w.inflight.value.ids, oldIds), Apply(w, Flip(oldIds));
    assert forall j :: j in w.outbox ==> j < w.next;
    assert forall i | 0 <= i < |events| :: events[i].SetAvailable?;
    FlipFrame(w.pg, w.inflight.value.target, false, id);
    hide TablesOk, Stuck, Enqueue, FlipEvents, FlipPg, Below;
    StuckEmit(w, w', events, k, id);
  }

  /** A repair that fits does not write the document of a deleted row. */
  lemma StuckCommitted(w: World, pg: Pg, c: Reconcile.Drift, k: nat, id: Id)
    requires TablesOk(w) && Stuck(w, k, id) && Reconcile.Repairable(pg, c) && AllFit(w, Reconcile.RepairEvents(pg, c))
    ensures Stuck(Emit(w, Reconcile.RepairEvents(pg, c)), k, id)
  {
    var events := Reconcile.RepairEvents(pg, c);
    assert forall j :: j in w.outbox ==> j < w.next;
    hide Reconcile.RepairEvents, TablesOk, Stuck, Enqueue;
    forall i | 0 <= i < |events| && events[i].IndexDoc? ensures events[i].id != id {
      assert Fits(w, events[i]);
      assert !Live(w.pg, id) by { StuckDead(w, k, id); }
    }
    StuckEmit(w, Emit(w, events), events, k, id);
  }

  lemma StuckDead(w: World, k: nat, id: Id)
    requires Stuck(w, k, id)
    ensures !Live(w.pg, id)
  {
  }

  lemma {:induction false} StuckForever(ws: seq<World>, actions: seq<Action>, i: nat, k: nat, id: Id)
    requires Steps(ws, actions) && Orderly(ws, actions) && i <= |actions| && TablesOk(ws[0]) && Stuck(ws[0], k, id)
    ensures TablesOk(ws[i]) && Stuck(ws[i], k, id) && !Quiet(ws[i])
  {
    hide Apply, Enabled, TablesOk, Stuck, Proper, Quiet;
    if i > 0 {
      StuckForever(ws, actions, i - 1, k, id);
      TablesKept(ws[i - 1], actions[i - 1]);
      StuckStays(ws[i - 1], actions[i - 1], k, id);
    }
    StuckBusy(ws[i], k, id);
  }

  lemma StuckBusy(w: World, k: nat, id: Id)
    requires Stuck(w, k, id)
    ensures !Quiet(w)
  {
  }

  /** While the reconcile was at work, version 1 was collected. After its commit an event is stuck for ever
      (StuckForever): no barrier is ever passed again. */
  lemma CollectBetween(file: string, a: Plain, b: Plain) returns (w: World, pg0: Pg, seen: Index)
    ensures Reached(w) && Quiet(w) && w.pg.flipped && Published(pg0, file, [a, b])
    ensures Enabled(w, Commit(pg0, seen, Found(file)))
    ensures var v := Apply(w, Commit(pg0, seen, Found(file))); TablesOk(v) && Stuck(v, w.next + 1, ChunkId(file, 1, 0))
  {
    var w2;
    w2, pg0, seen := ReadThenSettle(file, a, b);
    hide Published, Reconcile.Classifies, Seen, Reached, Stuck;
    w := CollectSettle(w2, file, a, b);
    CommitEnabled(w, pg0, seen, Found(file));
    ReachedOk(w);
    hide Enabled, Apply, TablesOk, SyncOk;
    TablesKept(w, Commit(pg0, seen, Found(file)));
    StuckCommits(w, pg0, seen, file);
  }

  lemma StuckCommits(w: World, pg0: Pg, seen: Index, file: string)
    requires Quiet(w) && (forall k :: k in w.outbox ==> k < w.next) && Enabled(w, Commit(pg0, seen, Found(file)))
    requires var id := ChunkId(file, 1, 0); id in w.issued && !Live(w.pg, id) && id !in w.es
    ensures Stuck(Apply(w, Commit(pg0, seen, Found(file))), w.next + 1, ChunkId(file, 1, 0))
  {
    FoundEvents(pg0, file);
    var events := Reconcile.RepairEvents(pg0, Found(file));
    assert Apply(w, Commit(pg0, seen, Found(file))) == Emit(w, events);
    hide Enabled, Apply, Reconcile.RepairEvents, Stuck, Emit;
    StuckCommit(w, events, 1, ChunkId(file, 1, 0));
  }

  /** Collecting version 1 and delivering the deletion. */
  lemma CollectSettle(w: World, file: string, a: string, b: string) returns (w': World)
    requires Reached(w) && Quiet(w) && Published(w.pg, file, [a, b])
    ensures Reached(w') && Quiet(w') && w'.readings == w.readings && w'.pg.flipped && forall k :: k in w'.outbox ==> k < w'.next
    ensures var id := ChunkId(file, 1, 0); id in w'.issued && !Live(w'.pg, id) && id !in w'.es
  {
    var id := ChunkId(file, 1, 0);
    var v := CollectFirst(w, file, a, b);
    hide Published, Reached, Removable;
    w' := Settle(v);
    QuietDoc(w', id);
    ReachedOk(w');
  }

  lemma CollectFirst(w: World, file: string, a: string, b: string) returns (v: World)
    requires Reached(w) && Quiet(w) && Published(w.pg, file, [a, b])
    ensures Reached(v) && v.readings == w.readings && v.inflight == w.inflight && v.pg.flipped
    ensures ChunkId(file, 1, 0) in v.issued && !Live(v.pg, ChunkId(file, 1, 0)) && Removable(v.es, v.outbox)
  {
    var c1 := ChunkId(file, 1, 0);
    NextFree(w);
    FirstBelow(w.pg, file, a, b);
    QuietDoc(w, c1);
    ReachedIssued(w, c1);
    hide Published, Gc.PurgePg, Live, Reached, Gc.DeleteEvents, ChunksBelow, SummariesBelow, Removable, Faithful, ActiveId;
    var g := Collect(1, [c1], []);
    assert Enabled(w, g) && Proper(w, g);
    Next(w, g);
    v := Apply(w, g);
    Collection.CollectOutbox(w, 1, [c1], []);
    assert [c1] + [] == [c1];
    Collection.DeletionsRemovable(w.es, w.outbox, w.next, w.clock, [c1]);
  }

  lemma ReachedIssued(w: World, id: Id)
    requires Reached(w) && Live(w.pg, id)
    ensures id in w.issued
  {
    ReachedOk(w);
  }

  lemma FirstBelow(pg: Pg, file: string, a: string, b: string)
    requires Published(pg, file, [a, b])
    ensures var c1 := ChunkId(file, 1, 0);
      && Gc.LockstepOk(pg.active) && Gc.Threshold(pg, 1) == 2 && Lists([c1], ChunksBelow(pg, 2)) && Lists([], SummariesBelow(pg, 2))
      && Live(pg, c1) && Gc.PurgePg(pg, 2).flipped && !Live(Gc.PurgePg(pg, 2), c1)
  {
    hide Simhash.Simhash, Numbers, Gc.AtLeast;
    assert ChunksBelow(pg, 2) == {ChunkId(file, 1, 0)} && SummariesBelow(pg, 2) == {};
  }

  lemma StuckCommit(w: World, events: seq<Event>, i: nat, id: Id)
    requires Quiet(w) && (forall k :: k in w.outbox ==> k < w.next) && i < |events| && id in w.issued && !Live(w.pg, id) && id !in w.es
    requires events[i].SetAvailable? && id in events[i].ids && forall j | 0 <= j < |events| :: !events[j].IndexDoc?
    ensures Stuck(Emit(w, events), w.next + i, id)
  {
    EnqueueOpen(w.outbox, w.next, w.clock, events);
    assert forall k: nat :: !Open(w.outbox, k);
    hide Enqueue, Live;
  }

  // ---------- the early window ----------

  /** Version 1 was staged and given up, version 2 has passed its barrier: a reconcile that nothing interrupts finds
      the hidden document of version 1 and takes it for one that has to be visible. */
  lemma EarlyRun(file: string, a: Plain, b: Plain) returns (w: World, c: Reconcile.Drift)
    ensures Reached(w) && Quiet(w) && EarlyWindow(w) && Reconcile.Classifies(w.pg, w.es, c) && c.avail == [ChunkId(file, 1, 0)]
  {
    hide Reached, Row, HiddenDoc, Target, Enabled, EarlyWindow;
    var w0 := Start(file);
    assert Quiet(w0) && Numbers(0) == [];
    TargetNumber(w0.pg, 0);
    var w1 := StageOne(w0, a);
    var w2 := GiveUp(w1);
    assert Numbers(1) == [1];
    TargetNumber(w2.pg, 1);
    var w3 := StageOne(w2, b);
    w := PassBarrier(w3);
    c := Reconcile.Clean.(avail := [ChunkId(file, 1, 0)]);
    EarlyFound(w.pg, w.es, file, a, b, w0.pg, w2.pg);
    InWindow(w);
  }

  lemma InWindow(w: World)
    requires w.inflight.Some? && w.inflight.value.cleared && !w.pg.flipped && w.inflight.value.target > 1
    ensures EarlyWindow(w)
  {
  }

  lemma GiveUp(w: World) returns (w': World)
    requires Reached(w)
    ensures Reached(w') && w' == w.(inflight := None)
  {
    Next(w, Abort);
    w' := Apply(w, Abort);
  }

  lemma EarlyFound(pg: Pg, es: Index, file: string, a: string, b: string, pg0: Pg, pg2: Pg)
    requires pg.file == file && pg.active == Pointers(1, 1, 1, 1) && !pg.flipped && pg.summaries == map[]
    requires pg.chunks == map[ChunkId(file, 1, 0) := Row(1, a), ChunkId(file, 2, 0) := Row(2, b)]
    requires Target(pg0) == 1 && Target(pg2) == 2
    requires es == map[ChunkId(file, 1, 0) := HiddenDoc(pg0, a), ChunkId(file, 2, 0) := HiddenDoc(pg2, b)]
    ensures Reconcile.Classifies(pg, es, Reconcile.Clean.(avail := [ChunkId(file, 1, 0)]))
  {
    hide Target, Simhash.Simhash;
    assert Reconcile.AvailDrift(pg, es) == {ChunkId(file, 1, 0)};
    assert Reconcile.MissChunks(pg, es) == {} == Reconcile.DriftChunks(pg, es);
    assert Reconcile.MissSummaries(pg, es) == {} == Reconcile.RetiredLeaks(pg, es) == Reconcile.Orphans(pg, es);
  }

  /** Its repair does harm. */
  lemma EarlyHarm(file: string, a: Plain, b: Plain) returns (w: World, c: Reconcile.Drift, ws: seq<World>, actions: seq<Action>)
    ensures Reached(w) && EarlyWindow(w) && Reconcile.Classifies(w.pg, w.es, c) && Enabled(w, Commit(w.pg, w.es, c))
    ensures Continues(w, Commit(w.pg, w.es, c), ws, actions) && !EndsWell(ws)
  {
    hide Reached, Continues, EndsWell, EarlyWindow, Reconcile.Classifies, Seen, Fits, Reconcile.RepairEvents, AllFit;
    var w0;
    w0, c := EarlyRun(file, a, b);
    w := JustLoaded(w0);
    CommitEnabled(w, w.pg, w.es, c);
    ReachedOk(w);
    hide Enabled, TablesOk, SyncOk;
    var i := UnfitEvent(w, c);
    PromptRemovable(w, c);
    ws, actions := UnfitHarms(w, w.pg, w.es, c, i);
  }

  lemma PromptRemovable(w: World, c: Reconcile.Drift)
    requires TablesOk(w) && Quiet(w) && Reconcile.Classifies(w.pg, w.es, c)
    ensures CommitRemovable(w, w.pg, c)
  {
    ReconcileConvergence.RepairRemovable(w, c);
  }

  lemma JustLoaded(w0: World) returns (w: World)
    requires Reached(w0)
    ensures Reached(w) && w.pg == w0.pg && w.es == w0.es && w.outbox == w0.outbox
    ensures Seen(w.readings, w.pg, w.es) && (EarlyWindow(w0) ==> EarlyWindow(w))
  {
    Next(w0, Load);
    w := Apply(w0, Load);
    SeenNow(w.readings, w.pg, w.es);
  }

  lemma UnfitEvent(w: World, c: Reconcile.Drift) returns (i: nat)
    requires TablesOk(w) && SyncOk(w) && EarlyWindow(w) && Reconcile.Classifies(w.pg, w.es, c) && c.avail != []
    ensures i < |Reconcile.RepairEvents(w.pg, c)| && !Fits(w, Reconcile.RepairEvents(w.pg, c)[i])
  {
    PromptFits(w, c);
    i :| 0 <= i < |Reconcile.RepairEvents(w.pg, c)| && !Fits(w, Reconcile.RepairEvents(w.pg, c)[i]);
  }
}
