/** The invariant that ties the tables, the unpublished outbox and the index together over every run in
    which nobody else writes this file's documents. */
module IndexInvariant {
  import opened Schema
  import opened Relay
  import opened Tables
  import opened Pipeline
  import opened Protocol
  import opened TableInvariant
  import Gc
  import Reconcile
  import Simhash

  /** The document a live row stands for, before it is made visible. */
  function Expected(pg: Pg, id: Id): Doc
    requires Live(pg, id)
  {
    if id in pg.chunks then
      var r := pg.chunks[id];
      Doc(r.content, Some(Embed(r.content)), pg.file, pg.tenant, ChunkDoc(r.page, r.order, r.version, r.sim), false)
    else
      var r := pg.summaries[id];
      Doc(r.text, Some(Embed(r.text)), pg.file, pg.tenant, SummaryDoc(r.sources, r.coverage), false)
  }

  /** Equal to the expected document except for visibility and, unless vectors are exact, the vector. */
  predicate Faithful(pg: Pg, exact: bool, id: Id, d: Doc)
    requires Live(pg, id)
  {
    && d.(visible := false, vec := None) == Expected(pg, id).(vec := None)
    && (exact ==> d.vec == Expected(pg, id).vec)
  }

  /** Never violated: documents of live rows are faithful, documents of deleted rows are hidden. */
  predicate Safe(pg: Pg, exact: bool, id: Id, d: Option<Doc>) {
    d.Some? ==>
      if Live(pg, id) then Faithful(pg, exact, id, d.value)
      else Reconcile.Labelled(pg, d.value) ==> !d.value.visible
  }

  /** The goal: every live row has its document, visible only if active, and iff active once the file has
      been published; no other document carries the file's label. */
  predicate Good(pg: Pg, id: Id, d: Option<Doc>) {
    if Live(pg, id) then
      d.Some? && (d.value.visible ==> ActiveId(pg, id)) && (pg.flipped && ActiveId(pg, id) ==> d.value.visible)
    else d.Some? ==> !Reconcile.Labelled(pg, d.value)
  }

  ghost function SafeOf(pg: Pg, exact: bool): (Id, Option<Doc>) -> bool {
    (id, d) => Safe(pg, exact, id, d)
  }

  ghost function GoodOf(pg: Pg): (Id, Option<Doc>) -> bool {
    (id, d) => Good(pg, id, d)
  }

  /** Open events mention only ids of this file; visibility events only live ones. */
  ghost predicate Scoped(w: World) {
    forall k: nat, id | Open(w.outbox, k) && Mentions(w.outbox[k].event, id) ::
      id in w.issued && (w.outbox[k].event.Delete? <==> !Live(w.pg, id))
  }

  /** The index holds none of the chunk ids this file has yet to hand out. */
  ghost predicate NoFutureDocs(w: World) {
    forall id | id in w.es && id.ChunkId? && id.file == w.pg.file :: id in w.issued
  }

  /** Past the barrier all live rows are in the index, and whatever is outstanding again suits the tables
      before and after the flip. */
  ghost predicate ClearedOk(w: World) {
    Cleared(w) ==>
      && (forall id :: Live(w.pg, id) ==> id in w.es)
      && (forall k: nat :: Open(w.outbox, k) ==> Fits(w, w.outbox[k].event))
  }

  ghost predicate Sync(w: World, exact: bool) {
    && Converging(SafeOf(w.pg, exact), GoodOf(w.pg), w.es, w.outbox)
    && Unwedged(w.es, w.outbox) && Scoped(w) && NoFutureDocs(w) && ClearedOk(w)
  }

  /** The documents of this file's ids carry its label, and no others do. */
  ghost predicate LabelsOk(w: World) {
    forall id | id in w.es :: id in w.issued <==> Reconcile.Labelled(w.pg, w.es[id])
  }

  /** A document that a reconcile saw under this file's rows or label is of an id handed out by this file, and
      it is still there as long as its row is. */
  ghost predicate LookOk(w: World, r: Reading) {
    forall id | id in r.es && (Live(r.pg, id) || Reconcile.Labelled(w.pg, r.es[id])) :: id in w.issued && (Live(w.pg, id) ==> id in w.es)
  }

  ghost predicate Traced(w: World) {
    LabelsOk(w) && forall r | r in w.readings :: LookOk(w, r)
  }

  ghost predicate SyncOk(w: World) {
    Sync(w, false) && (w.exact ==> Sync(w, true)) && Traced(w)
  }

  // ---------- delivery attempts ----------

  lemma AttemptKeeps(w: World, k: nat, calls: nat, committed: bool, exact: bool)
    requires TablesOk(w) && Sync(w, exact) && Open(w.outbox, k)
    ensures Sync(AttemptWorld(w, k, calls, committed), exact)
  {
    var w' := AttemptWorld(w, k, calls, committed);
    var e := w.outbox[k].event;
    AttemptConverges(SafeOf(w.pg, exact), GoodOf(w.pg), w.es, w.outbox, k, calls, w'.outbox, MAX_ATTEMPTS);
    PublishBetween(e, w.es, calls);
    assert forall j: nat :: Open(w'.outbox, j) ==> Open(w.outbox, j) && w'.outbox[j].event == w.outbox[j].event;
    forall id | id in w'.es && id !in w.es ensures id in w.issued {
      assert At(w'.es, id) != At(w.es, id);
    }
    forall id | Live(w.pg, id) && id in w.es ensures id in w'.es {
      assert At(w'.es, id) == At(w.es, id) || Mentions(e, id);
    }
  }

  // ---------- transactions that emit events ----------

  /** What a transaction owes for each event it emits. */
  ghost predicate EventOk(pg': Pg, issued': set<Id>, es: Index, exact: bool, e: Event) {
    && !e.Unknown? && Sound(SafeOf(pg', exact), GoodOf(pg'), e)
    && (forall id | Mentions(e, id) :: id in issued' && (e.Delete? <==> !Live(pg', id)) && (e.SetAvailable? ==> id in es))
  }

  ghost predicate EventsOk(pg': Pg, issued': set<Id>, es: Index, exact: bool, events: seq<Event>) {
    forall i | 0 <= i < |events| :: EventOk(pg', issued', es, exact, events[i])
  }

  /** Documents stay safe, and an event covers each document that the new tables make not good. */
  ghost predicate DocsOk(w: World, pg': Pg, exact: bool, events: seq<Event>) {
    && (forall id :: Safe(pg', exact, id, At(w.es, id)))
    && (forall id :: Good(pg', id, At(w.es, id)) || Covered(w.outbox, id) || MentionedIn(events, id))
  }

  /** The old open events stay right when the tables change. */
  ghost predicate OldEventsOk(w: World, pg': Pg, exact: bool) {
    forall k: nat | Open(w.outbox, k) ::
      && Sound(SafeOf(pg', exact), GoodOf(pg'), w.outbox[k].event)
      && forall id | Mentions(w.outbox[k].event, id) :: Live(pg', id) == Live(w.pg, id)
  }

  lemma OldEventOk(w: World, w': World, exact: bool, k: nat)
    requires Unwedged(w.es, w.outbox) && Scoped(w) && w.issued <= w'.issued
    requires OldEventsOk(w, w'.pg, exact) && Open(w.outbox, k)
    ensures EventOk(w'.pg, w'.issued, w.es, exact, w.outbox[k].event)
  {
    hide Sound, Live;
    forall id | Mentions(w.outbox[k].event, id) && w.outbox[k].event.SetAvailable? ensures id in w.es {
      assert id in w.outbox[k].event.ids;
    }
  }

  lemma CommitOpen(w: World, w': World, events: seq<Event>, exact: bool, k: nat)
    requires (forall j :: j in w.outbox ==> j < w.next) && Unwedged(w.es, w.outbox) && Scoped(w)
    requires w'.outbox == Enqueue(w.outbox, w.next, w.clock, events) && w.issued <= w'.issued
    requires OldEventsOk(w, w'.pg, exact) && EventsOk(w'.pg, w'.issued, w.es, exact, events)
    requires Open(w'.outbox, k)
    ensures EventOk(w'.pg, w'.issued, w.es, exact, w'.outbox[k].event)
  {
    hide EventOk, OldEventsOk, Unwedged, Scoped, Enqueue;
    EnqueueOpen(w.outbox, w.next, w.clock, events);
    if Open(w.outbox, k) {
      OldEventOk(w, w', exact, k);
    } else {
      assert w'.outbox[k].event == events[k - w.next];
    }
  }

  lemma CommitConverges(w: World, w': World, events: seq<Event>, exact: bool)
    requires forall k :: k in w.outbox ==> k < w.next
    requires w'.outbox == Enqueue(w.outbox, w.next, w.clock, events) && w'.es == w.es
    requires OldEventsOk(w, w'.pg, exact) && EventsOk(w'.pg, w'.issued, w.es, exact, events) && DocsOk(w, w'.pg, exact, events)
    ensures Converging(SafeOf(w'.pg, exact), GoodOf(w'.pg), w'.es, w'.outbox)
  {
    hide Enqueue, Sound, Safe, Good, Mentions, Covered, MentionedIn;
    EnqueueConverges(SafeOf(w'.pg, exact), GoodOf(w'.pg), w.es, w.outbox, w.next, w.clock, events);
  }

  /** Events that are all right neither wedge the outbox nor leave the file's scope. */
  lemma OpenEventsOk(w: World, exact: bool)
    requires forall k: nat | Open(w.outbox, k) :: EventOk(w.pg, w.issued, w.es, exact, w.outbox[k].event)
    ensures Unwedged(w.es, w.outbox) && Scoped(w)
  {
    hide Sound, Live;
    forall k: nat, id | Open(w.outbox, k) && w.outbox[k].event.SetAvailable? && id in w.outbox[k].event.ids
      ensures id in w.es && Live(w.pg, id)
    {
      assert Mentions(w.outbox[k].event, id);
    }
    forall id | DeletePending(w.outbox, id) ensures !Live(w.pg, id) {
      var k: nat :| Open(w.outbox, k) && w.outbox[k].event.Delete? && id in w.outbox[k].event.ids;
      assert Mentions(w.outbox[k].event, id);
    }
  }

  lemma CommitSync(w: World, w': World, events: seq<Event>, exact: bool)
    requires (forall k :: k in w.outbox ==> k < w.next) && Unwedged(w.es, w.outbox) && Scoped(w)
    requires w'.outbox == Enqueue(w.outbox, w.next, w.clock, events) && w.issued <= w'.issued && w'.es == w.es
    requires OldEventsOk(w, w'.pg, exact) && EventsOk(w'.pg, w'.issued, w.es, exact, events) && DocsOk(w, w'.pg, exact, events)
    ensures Converging(SafeOf(w'.pg, exact), GoodOf(w'.pg), w'.es, w'.outbox) && Unwedged(w'.es, w'.outbox) && Scoped(w')
  {
    CommitConverges(w, w', events, exact);
    hide Enqueue, EventOk, OldEventsOk, EventsOk, DocsOk, Unwedged, Scoped;
    forall k: nat | Open(w'.outbox, k) ensures EventOk(w'.pg, w'.issued, w'.es, exact, w'.outbox[k].event) {
      CommitOpen(w, w', events, exact, k);
    }
    OpenEventsOk(w', exact);
  }

  // ---------- tables that keep a row ----------

  predicate SameRow(pg: Pg, pg': Pg, id: Id) {
    && (id in pg.chunks <==> id in pg'.chunks) && (id in pg.chunks ==> pg'.chunks[id] == pg.chunks[id])
    && (id in pg.summaries <==> id in pg'.summaries) && (id in pg.summaries ==> pg'.summaries[id] == pg.summaries[id])
  }

  predicate SameFile(pg: Pg, pg': Pg) {
    pg'.file == pg.file && pg'.tenant == pg.tenant && pg'.active == pg.active && pg'.flipped == pg.flipped
  }

  lemma FrameRow(pg: Pg, pg': Pg, exact: bool, id: Id)
    requires SameFile(pg, pg') && SameRow(pg, pg', id)
    ensures Live(pg', id) == Live(pg, id)
    ensures forall d :: Safe(pg', exact, id, d) == Safe(pg, exact, id, d) && Good(pg', id, d) == Good(pg, id, d)
  {
  }

  /** Open events stay sound if the rows they mention are kept as they are. */
  lemma FrameEvents(w: World, pg': Pg, exact: bool)
    requires SameFile(w.pg, pg') && Converging(SafeOf(w.pg, exact), GoodOf(w.pg), w.es, w.outbox)
    requires forall k: nat, id | Open(w.outbox, k) && Mentions(w.outbox[k].event, id) :: SameRow(w.pg, pg', id)
    ensures OldEventsOk(w, pg', exact)
  {
    forall k: nat | Open(w.outbox, k)
      ensures Sound(SafeOf(pg', exact), GoodOf(pg'), w.outbox[k].event)
      ensures forall id | Mentions(w.outbox[k].event, id) :: Live(pg', id) == Live(w.pg, id)
    {
      var e := w.outbox[k].event;
      assert Sound(SafeOf(w.pg, exact), GoodOf(w.pg), e);
      forall id | Mentions(e, id)
        ensures Live(pg', id) == Live(w.pg, id)
        ensures forall d :: SafeOf(pg', exact)(id, d) == SafeOf(w.pg, exact)(id, d) && GoodOf(pg')(id, d) == GoodOf(w.pg)(id, d)
      {
        FrameRow(w.pg, pg', exact, id);
      }
    }
  }

  // ---------- stage ----------

  lemma StageSameRow(w: World, s: Staging, id: Id)
    requires IssuedOk(w) && StageOk(w, s) && id !in NewIds(s)
    ensures SameRow(w.pg, StagePg(w.pg, s), id)
  {
    StagedChunks(w, s);
    StagedSummaries(w, s);
  }

  lemma IndexOk(pg': Pg, issued': set<Id>, es: Index, exact: bool, id: Id, source: Doc)
    requires Live(pg', id) && id in issued' && Faithful(pg', exact, id, source)
    requires (source.visible ==> ActiveId(pg', id)) && (pg'.flipped && ActiveId(pg', id) ==> source.visible)
    ensures EventOk(pg', issued', es, exact, IndexDoc(id, source))
  {
  }

  function ChunkEvent(pg: Pg, s: Staging, i: nat): Event
    requires Shaped(s) && i < |s.chunks|
  {
    IndexDoc(s.chunks[i].id, ChunkSource(s.chunks[i], s.vecs[i], pg.file, pg.tenant, Target(pg)))
  }

  function SummaryEvent(pg: Pg, s: Staging, i: nat): Event
    requires Shaped(s) && i < |s.items|
  {
    IndexDoc(s.summaryIds[i], SummarySource(s.items[i].text, s.items[i].sources, s.items[i].vec, pg.file, pg.tenant, s.coverage))
  }

  lemma StageChunkEvent(w: World, s: Staging, issued': set<Id>, exact: bool, i: nat)
    requires PointersOk(w.pg) && IssuedOk(w) && StageOk(w, s) && i < |s.chunks| && (exact ==> ExactVectors(s))
    requires s.chunks[i].id in issued'
    ensures EventOk(StagePg(w.pg, s), issued', w.es, exact, ChunkEvent(w.pg, s, i))
  {
    StagedChunks(w, s);
    FreshKeys(w, s);
    assert s.chunks[i].id == ChunkIds(s.chunks)[i];
    IndexOk(StagePg(w.pg, s), issued', w.es, exact, s.chunks[i].id, ChunkEvent(w.pg, s, i).source);
  }

  lemma StageSummaryEvent(w: World, s: Staging, issued': set<Id>, exact: bool, i: nat)
    requires PointersOk(w.pg) && IssuedOk(w) && StageOk(w, s) && i < |s.items| && (exact ==> ExactVectors(s))
    requires ChunksOk(StagePg(w.pg, s)) && SummariesOk(StagePg(w.pg, s)) && s.summaryIds[i] in issued'
    ensures EventOk(StagePg(w.pg, s), issued', w.es, exact, SummaryEvent(w.pg, s, i))
  {
    StagedSummaries(w, s);
    FreshKeys(w, s);
    IndexOk(StagePg(w.pg, s), issued', w.es, exact, s.summaryIds[i], SummaryEvent(w.pg, s, i).source);
  }

  lemma NewIdsMembers(s: Staging)
    requires |s.summaryIds| == |s.items|
    ensures forall i | 0 <= i < |s.chunks| :: s.chunks[i].id in NewIds(s)
    ensures forall i | 0 <= i < |s.items| :: s.summaryIds[i] in NewIds(s)
  {
    assert forall i | 0 <= i < |s.chunks| :: s.chunks[i].id == ChunkIds(s.chunks)[i] == NewIds(s)[i];
    assert forall i | 0 <= i < |s.items| :: s.summaryIds[i] == NewIds(s)[|s.chunks| + i];
  }

  lemma StageEventAt(pg: Pg, s: Staging, i: nat)
    requires Shaped(s) && i < |s.chunks| + |s.items|
    ensures |StageEvents(pg, s)| == |s.chunks| + |s.items|
    ensures StageEvents(pg, s)[i] == if i < |s.chunks| then ChunkEvent(pg, s, i) else SummaryEvent(pg, s, i - |s.chunks|)
  {
  }

  lemma StageEventsOk(w: World, s: Staging, issued': set<Id>, exact: bool)
    requires Shaped(s)
    requires forall i | 0 <= i < |s.chunks| :: EventOk(StagePg(w.pg, s), issued', w.es, exact, ChunkEvent(w.pg, s, i))
    requires forall i | 0 <= i < |s.items| :: EventOk(StagePg(w.pg, s), issued', w.es, exact, SummaryEvent(w.pg, s, i))
    ensures EventsOk(StagePg(w.pg, s), issued', w.es, exact, StageEvents(w.pg, s))
  {
    hide EventOk, StagePg;
    forall i | 0 <= i < |StageEvents(w.pg, s)| ensures EventOk(StagePg(w.pg, s), issued', w.es, exact, StageEvents(w.pg, s)[i]) {
      StageEventAt(w.pg, s, i);
    }
  }

  lemma StageMentions(pg: Pg, s: Staging, id: Id)
    requires Shaped(s) && id in NewIds(s)
    ensures MentionedIn(StageEvents(pg, s), id)
  {
    var i :| 0 <= i < |NewIds(s)| && NewIds(s)[i] == id;
    assert Mentions(StageEvents(pg, s)[i], id);
  }

  /** A staged id has no document yet. */
  lemma StageNoDoc(w: World, s: Staging, id: Id)
    requires IssuedOk(w) && StageOk(w, s) && NoFutureDocs(w) && id in NewIds(s)
    ensures id !in w.es && id !in w.issued
  {
    FreshKeys(w, s);
    if id in ChunkIds(s.chunks) {
      var i :| 0 <= i < |s.chunks| && ChunkIds(s.chunks)[i] == id;
    } else {
      assert id in s.summaryIds;
    }
  }

  lemma StageEventsReady(w: World, s: Staging, issued': set<Id>, exact: bool)
    requires TablesOk(w) && StageOk(w, s) && (exact ==> ExactVectors(s))
    requires forall id :: id in NewIds(s) ==> id in issued'
    ensures EventsOk(StagePg(w.pg, s), issued', w.es, exact, StageEvents(w.pg, s))
  {
    StageRows(w, s);
    NewIdsMembers(s);
    hide StagePg, StageEvents, EventOk, EventsOk, NewIds, ChunksOk, SummariesOk, AnchorsOk, ExactVectors;
    forall i | 0 <= i < |s.chunks| ensures EventOk(StagePg(w.pg, s), issued', w.es, exact, ChunkEvent(w.pg, s, i)) {
      StageChunkEvent(w, s, issued', exact, i);
    }
    forall i | 0 <= i < |s.items| ensures EventOk(StagePg(w.pg, s), issued', w.es, exact, SummaryEvent(w.pg, s, i)) {
      StageSummaryEvent(w, s, issued', exact, i);
    }
    StageEventsOk(w, s, issued', exact);
  }

  lemma StageOldEvents(w: World, s: Staging, exact: bool)
    requires IssuedOk(w) && StageOk(w, s) && Scoped(w) && NoFutureDocs(w)
    requires Converging(SafeOf(w.pg, exact), GoodOf(w.pg), w.es, w.outbox)
    ensures OldEventsOk(w, StagePg(w.pg, s), exact)
  {
    StageFile(w.pg, s);
    hide StageOk, StagePg, SameRow, SameFile, OldEventsOk, NewIds;
    forall k: nat, id | Open(w.outbox, k) && Mentions(w.outbox[k].event, id) ensures SameRow(w.pg, StagePg(w.pg, s), id) {
      if id in NewIds(s) { StageNoDoc(w, s, id); }
      StageSameRow(w, s, id);
    }
    FrameEvents(w, StagePg(w.pg, s), exact);
  }

  lemma StageDocs(w: World, s: Staging, exact: bool)
    requires IssuedOk(w) && StageOk(w, s) && NoFutureDocs(w)
    requires Converging(SafeOf(w.pg, exact), GoodOf(w.pg), w.es, w.outbox)
    ensures DocsOk(w, StagePg(w.pg, s), exact, StageEvents(w.pg, s))
  {
    StageFile(w.pg, s);
    var pg', events := StagePg(w.pg, s), StageEvents(w.pg, s);
    hide StageOk, StagePg, StageEvents, SameRow, SameFile, NewIds, IssuedOk;
    forall id
      ensures Safe(pg', exact, id, At(w.es, id))
      ensures Good(pg', id, At(w.es, id)) || Covered(w.outbox, id) || MentionedIn(events, id)
    {
      if id in NewIds(s) {
        StageNoDoc(w, s, id);
        StageMentions(w.pg, s, id);
      } else {
        assert SafeOf(w.pg, exact)(id, At(w.es, id)) && (GoodOf(w.pg)(id, At(w.es, id)) || Covered(w.outbox, id));
        StageSameRow(w, s, id);
        FrameRow(w.pg, pg', exact, id);
      }
    }
  }

  lemma StageSync(w: World, s: Staging, exact: bool)
    requires TablesOk(w) && w.inflight.None? && StageOk(w, s) && Sync(w, exact)
    requires exact ==> ExactVectors(s)
    ensures Sync(StageWorld(w, s), exact)
  {
    var w', pg', events := StageWorld(w, s), StagePg(w.pg, s), StageEvents(w.pg, s);
    assert w'.pg == pg' && w'.es == w.es && w'.outbox == Enqueue(w.outbox, w.next, w.clock, events);
    assert w'.issued == w.issued + Members(NewIds(s)) + Members(s.anchorIds) && w'.inflight.Some? && !w'.inflight.value.cleared;
    assert forall id :: id in NewIds(s) ==> id in w'.issued;
    hide StageWorld, StagePg, StageEvents, Enqueue, StageOk, ChunksOk, SummariesOk, AnchorsOk, PointersOk, InflightOk, ReadingsOk, ExactVectors;
    StageEventsReady(w, s, w'.issued, exact);
    StageOldEvents(w, s, exact);
    StageDocs(w, s, exact);
    hide EventsOk, DocsOk, OldEventsOk, Converging, Unwedged, Scoped, NewIds;
    CommitSync(w, w', events, exact);
  }

  lemma StageFile(pg: Pg, s: Staging)
    requires Shaped(s)
    ensures SameFile(pg, StagePg(pg, s))
  {
  }

  // ---------- flip ----------

  /** Flipping changes which version is active, not what a document of a row must contain. */
  lemma FlipFrame(pg: Pg, target: nat, exact: bool, id: Id)
    ensures Live(FlipPg(pg, target), id) == Live(pg, id)
    ensures Live(pg, id) ==> VersionOf(FlipPg(pg, target), id) == VersionOf(pg, id)
    ensures forall d :: Safe(FlipPg(pg, target), exact, id, d) == Safe(pg, exact, id, d)
    ensures !Live(pg, id) ==> forall d :: Good(FlipPg(pg, target), id, d) == Good(pg, id, d)
  {
  }

  lemma SetOk(pg': Pg, issued': set<Id>, es: Index, exact: bool, ids: seq<Id>, v: bool)
    requires forall id :: id in ids ==> id in issued' && id in es && Live(pg', id)
    requires forall id :: id in ids ==> (v ==> ActiveId(pg', id)) && (pg'.flipped && ActiveId(pg', id) ==> v)
    ensures EventOk(pg', issued', es, exact, SetAvailable(ids, v))
  {
  }

  lemma DeleteOk(pg': Pg, issued': set<Id>, es: Index, exact: bool, ids: seq<Id>)
    requires forall id :: id in ids ==> id in issued' && !Live(pg', id)
    ensures EventOk(pg', issued', es, exact, Delete(ids))
  {
  }

  lemma ActiveVersion(pg: Pg, id: Id)
    requires Gc.LockstepOk(pg.active) && Live(pg, id) && ChunksOk(pg) && SummariesOk(pg)
    ensures ActiveId(pg, id) == (VersionOf(pg, id) == pg.active.doc)
  {
  }

  lemma FlipEventsOk(w: World, oldIds: seq<Id>, exact: bool)
    requires TablesOk(w) && Enabled(w, Flip(oldIds)) && ClearedOk(w)
    ensures var events := FlipEvents(w.inflight.value.ids, oldIds);
      && EventsOk(FlipPg(w.pg, w.inflight.value.target), w.issued, w.es, exact, events)
      && (forall id | Live(w.pg, id) :: MentionedIn(events, id))
  {
    var t, newIds := w.inflight.value.target, w.inflight.value.ids;
    var pg', events := FlipPg(w.pg, t), FlipEvents(newIds, oldIds);
    FlipRows(w.pg, t);
    forall id | Live(w.pg, id) ensures Live(pg', id) && id in w.issued && id in w.es && ActiveId(pg', id) == (VersionOf(w.pg, id) == t) {
      FlipFrame(w.pg, t, exact, id);
      ActiveVersion(pg', id);
    }
    assert forall id :: id in newIds ==> Live(w.pg, id) && VersionOf(w.pg, id) == t;
    assert forall id :: id in oldIds ==> Live(w.pg, id) && VersionOf(w.pg, id) < t by { OldVersions(w.pg, t); }
    SetOk(pg', w.issued, w.es, exact, newIds, true);
    SetOk(pg', w.issued, w.es, exact, oldIds, false);
    forall id | Live(w.pg, id) ensures MentionedIn(events, id) {
      OldVersions(w.pg, t);
      if VersionOf(w.pg, id) == t {
        assert id in newIds && Mentions(events[0], id);
      } else {
        assert id in oldIds && Mentions(events[|events| - 1], id);
      }
    }
  }

  lemma OldVersions(pg: Pg, t: nat)
    requires ChunksOk(pg) && SummariesOk(pg) && t == Latest(pg.versions)
    ensures forall id :: id in Below(pg, t) <==> Live(pg, id) && VersionOf(pg, id) < t
    ensures forall id | Live(pg, id) :: VersionOf(pg, id) <= t
  {
  }

  lemma FlipOldEvents(w: World, t: nat, exact: bool)
    requires TablesOk(w) && Sync(w, exact) && Cleared(w) && w.inflight.value.target == t
    ensures OldEventsOk(w, FlipPg(w.pg, t), exact)
  {
    hide FlipPg, Sound, Fits, ChunksOk, SummariesOk, AnchorsOk, PointersOk, Suits, Live;
    forall k: nat | Open(w.outbox, k)
      ensures Sound(SafeOf(FlipPg(w.pg, t), exact), GoodOf(FlipPg(w.pg, t)), w.outbox[k].event)
      ensures forall id | Mentions(w.outbox[k].event, id) :: Live(FlipPg(w.pg, t), id) == Live(w.pg, id)
    {
      FlipOldEvent(w, t, exact, k);
    }
  }

  /** An event that fits stays right when the ingest flips. */
  lemma FlipOldEvent(w: World, t: nat, exact: bool, k: nat)
    requires Sync(w, exact) && Cleared(w) && w.inflight.value.target == t && Open(w.outbox, k)
    ensures Sound(SafeOf(FlipPg(w.pg, t), exact), GoodOf(FlipPg(w.pg, t)), w.outbox[k].event)
    ensures forall id | Mentions(w.outbox[k].event, id) :: Live(FlipPg(w.pg, t), id) == Live(w.pg, id)
  {
    var pg', e := FlipPg(w.pg, t), w.outbox[k].event;
    assert Fits(w, e) && Sound(SafeOf(w.pg, exact), GoodOf(w.pg), e);
    forall id | Mentions(e, id) ensures Live(pg', id) == Live(w.pg, id) && id in w.issued {
      FlipFrame(w.pg, t, exact, id);
    }
    if e.IndexDoc? {
      assert Mentions(e, e.id);
      FlipSource(w.pg, t, exact, e.id, e.source);
      IndexOk(pg', w.issued, w.es, exact, e.id, e.source);
      assert e == IndexDoc(e.id, e.source);
    } else {
      FlipBatch(w, pg', exact, k);
    }
  }

  lemma FlipBatch(w: World, pg': Pg, exact: bool, k: nat)
    requires Unwedged(w.es, w.outbox) && Open(w.outbox, k) && !w.outbox[k].event.IndexDoc? && Suits(pg', w.outbox[k].event)
    requires forall id | Mentions(w.outbox[k].event, id) :: id in w.issued
    ensures Sound(SafeOf(pg', exact), GoodOf(pg'), w.outbox[k].event)
  {
    var e := w.outbox[k].event;
    assert forall id :: id in e.ids ==> Mentions(e, id);
    if e.Delete? {
      DeleteOk(pg', w.issued, w.es, exact, e.ids);
      assert e == Delete(e.ids);
    } else {
      SetOk(pg', w.issued, w.es, exact, e.ids, e.available);
      assert e == SetAvailable(e.ids, e.available);
    }
  }

  /** A sound index event carries its row's document. */
  lemma FlipSource(pg: Pg, t: nat, exact: bool, id: Id, source: Doc)
    requires Sound(SafeOf(pg, exact), GoodOf(pg), IndexDoc(id, source)) && Live(pg, id)
    ensures Live(FlipPg(pg, t), id) && Faithful(FlipPg(pg, t), exact, id, source)
  {
    assert SafeOf(pg, exact)(id, None);
    assert Mentions(IndexDoc(id, source), id);
    assert SafeOf(pg, exact)(id, Effect(IndexDoc(id, source), None));
    FlipFrame(pg, t, exact, id);
  }

  lemma FlipSync(w: World, oldIds: seq<Id>, exact: bool)
    requires TablesOk(w) && Enabled(w, Flip(oldIds)) && Sync(w, exact)
    ensures Sync(Apply(w, Flip(oldIds)), exact)
  {
    var t := w.inflight.value.target;
    var w', pg', events := Apply(w, Flip(oldIds)), FlipPg(w.pg, t), FlipEvents(w.inflight.value.ids, oldIds);
    FlipEventsOk(w, oldIds, exact);
    FlipOldEvents(w, t, exact);
    hide FlipPg, FlipEvents, ChunksOk, SummariesOk, AnchorsOk, PointersOk, EventOk, EventsOk, OldEventsOk, Unwedged, Scoped, Enqueue;
    forall id
      ensures Safe(pg', exact, id, At(w.es, id))
      ensures Good(pg', id, At(w.es, id)) || Covered(w.outbox, id) || MentionedIn(events, id)
    {
      assert SafeOf(w.pg, exact)(id, At(w.es, id)) && (GoodOf(w.pg)(id, At(w.es, id)) || Covered(w.outbox, id));
      FlipFrame(w.pg, t, exact, id);
    }
    CommitSync(w, w', events, exact);
  }

  // ---------- collect ----------

  predicate IsBatch(e: Event, ids: seq<Id>) {
    e.Delete? && |e.ids| <= Gc.DELETE_BATCH && forall id :: id in e.ids ==> id in ids
  }

  lemma {:induction false} DeleteEventsShape(ids: seq<Id>)
    ensures forall i | 0 <= i < |Gc.DeleteEvents(ids)| :: IsBatch(Gc.DeleteEvents(ids)[i], ids)
    ensures forall id | id in ids :: MentionedIn(Gc.DeleteEvents(ids), id)
    decreases |ids|
  {
    var events := Gc.DeleteEvents(ids);
    if |ids| > Gc.DELETE_BATCH {
      var head, rest := ids[..Gc.DELETE_BATCH], ids[Gc.DELETE_BATCH..];
      assert ids == head + rest;
      DeleteEventsShape(rest);
      assert events == [Delete(head)] + Gc.DeleteEvents(rest);
      hide Gc.DeleteEvents;
      forall i | 0 <= i < |events| ensures IsBatch(events[i], ids) {
        if i > 0 { assert IsBatch(Gc.DeleteEvents(rest)[i - 1], rest); }
      }
      forall id | id in ids ensures MentionedIn(events, id) {
        if id in head {
          assert Mentions(events[0], id);
        } else {
          var i :| 0 <= i < |Gc.DeleteEvents(rest)| && Mentions(Gc.DeleteEvents(rest)[i], id);
          assert Mentions(events[i + 1], id);
        }
      }
    } else if |ids| > 0 {
      forall id | id in ids ensures MentionedIn(events, id) {
        assert Mentions(events[0], id);
      }
    }
  }

  /** Rows at or above the threshold are kept as they are, rows below it are gone. */
  lemma PurgeFrame(pg: Pg, t: int, id: Id)
    ensures SameFile(pg, Gc.PurgePg(pg, t))
    ensures id !in Below(pg, t) ==> SameRow(pg, Gc.PurgePg(pg, t), id)
    ensures ChunksOk(pg) && SummariesOk(pg) && id in Below(pg, t) ==> !Live(Gc.PurgePg(pg, t), id) && Live(pg, id) && VersionOf(pg, id) < t
  {
  }

  lemma CollectEventsOk(w: World, t: int, ids: seq<Id>, exact: bool)
    requires ChunksOk(w.pg) && SummariesOk(w.pg) && IssuedOk(w) && forall id :: id in ids ==> id in Below(w.pg, t)
    ensures EventsOk(Gc.PurgePg(w.pg, t), w.issued, w.es, exact, Gc.DeleteEvents(ids))
    ensures forall e :: e in Gc.DeleteEvents(ids) ==> e.Delete? && forall id :: id in e.ids ==> !Live(Gc.PurgePg(w.pg, t), id)
  {
    var events := Gc.DeleteEvents(ids);
    DeleteEventsShape(ids);
    forall id | id in ids ensures id in w.issued && !Live(Gc.PurgePg(w.pg, t), id) {
      PurgeFrame(w.pg, t, id);
    }
    hide Gc.PurgePg, Gc.DeleteEvents, Below, Live, EventOk;
    forall i | 0 <= i < |events| ensures EventOk(Gc.PurgePg(w.pg, t), w.issued, w.es, exact, events[i]) {
      var batch := events[i].ids;
      DeleteOk(Gc.PurgePg(w.pg, t), w.issued, w.es, exact, batch);
      assert events[i] == Delete(batch);
    }
  }

  lemma PurgeLive(pg: Pg, t: int)
    ensures forall id :: Live(Gc.PurgePg(pg, t), id) ==> Live(pg, id)
  {
  }

  lemma CollectCommit(w: World, w': World, t: int, ids: seq<Id>, exact: bool)
    requires TablesOk(w) && Sync(w, exact) && Quiet(w) && w.pg.flipped && t <= w.pg.active.doc
    requires forall id :: id in ids <==> id in Below(w.pg, t)
    requires w' == Emit(w, Gc.DeleteEvents(ids)).(pg := Gc.PurgePg(w.pg, t))
    ensures Sync(w', exact)
  {
    var events := Gc.DeleteEvents(ids);
    CollectEventsOk(w, t, ids, exact);
    CollectDocs(w, t, exact);
    PurgeLive(w.pg, t);
    assert DocsOk(w, w'.pg, exact, events) by { DeleteEventsShape(ids); }
    assert forall k: nat :: !Open(w.outbox, k);
    hide Gc.PurgePg, Gc.DeleteEvents, Below, AnchorsOk, ChunksOk, SummariesOk, PointersOk, InflightOk, ReadingsOk, EventsOk, DocsOk, Enqueue;
    CommitSync(w, w', events, exact);
    CollectCleared(w, w', events);
    hide Converging, Unwedged, Scoped, ClearedOk;
  }

  /** Past the barrier a collection leaves only deletions open. */
  lemma CollectCleared(w: World, w': World, events: seq<Event>)
    requires ClearedOk(w) && Quiet(w) && (forall k :: k in w.outbox ==> k < w.next)
    requires forall e :: e in events ==> e.Delete? && forall id :: id in e.ids ==> !Live(w'.pg, id)
    requires w'.outbox == Enqueue(w.outbox, w.next, w.clock, events) && w'.es == w.es && w'.inflight == w.inflight
    requires forall id :: Live(w'.pg, id) ==> Live(w.pg, id)
    ensures ClearedOk(w')
  {
    EnqueueOpen(w.outbox, w.next, w.clock, events);
    hide Enqueue, Live, Fits;
    assert forall k: nat :: !Open(w.outbox, k);
    forall k: nat | Open(w'.outbox, k) ensures Cleared(w') ==> Fits(w', w'.outbox[k].event) {
      assert w'.outbox[k].event == events[k - w.next] && events[k - w.next] in events;
      DeletionFits(w', events[k - w.next]);
    }
  }

  lemma DeletionFits(w: World, e: Event)
    requires e.Delete? && forall id :: id in e.ids ==> !Live(w.pg, id)
    ensures Fits(w, e)
  {
  }

  lemma CollectSync(w: World, retain: nat, chunkIds: seq<Id>, summaryIds: seq<Id>, exact: bool)
    requires TablesOk(w) && Enabled(w, Collect(retain, chunkIds, summaryIds)) && Sync(w, exact)
    ensures Sync(Apply(w, Collect(retain, chunkIds, summaryIds)), exact)
  {
    var t := Gc.Threshold(w.pg, retain);
    if t > 1 {
      assert forall id :: id in chunkIds + summaryIds <==> id in Below(w.pg, t);
      hide Sync;
      CollectCommit(w, Apply(w, Collect(retain, chunkIds, summaryIds)), t, chunkIds + summaryIds, exact);
    }
  }

  /** With nothing outstanding, what a collection removes is already hidden and what it keeps is already good. */
  lemma CollectDocs(w: World, t: int, exact: bool)
    requires TablesOk(w) && Converging(SafeOf(w.pg, exact), GoodOf(w.pg), w.es, w.outbox) && Quiet(w) && w.pg.flipped && t <= w.pg.active.doc
    ensures forall id :: Safe(Gc.PurgePg(w.pg, t), exact, id, At(w.es, id))
    ensures forall id :: Good(Gc.PurgePg(w.pg, t), id, At(w.es, id)) || id in Below(w.pg, t)
  {
    var pg' := Gc.PurgePg(w.pg, t);
    forall id
      ensures Safe(pg', exact, id, At(w.es, id))
      ensures Good(pg', id, At(w.es, id)) || id in Below(w.pg, t)
    {
      PurgeFrame(w.pg, t, id);
      assert SafeOf(w.pg, exact)(id, At(w.es, id)) && GoodOf(w.pg)(id, At(w.es, id));
      if id !in Below(w.pg, t) {
        FrameRow(w.pg, pg', exact, id);
      } else {
        ActiveVersion(w.pg, id);
      }
    }
  }

  // ---------- repair ----------

  /** Re-building a stored row gives exactly the document it was staged with, now visible. */
  lemma RepairExpected(pg: Pg, id: Id)
    requires ChunksOk(pg) && SummariesOk(pg) && Live(pg, id)
    ensures id in pg.chunks ==> Reconcile.RepairChunk(pg, id) == IndexDoc(id, Expected(pg, id).(visible := true))
    ensures id in pg.summaries ==> Reconcile.RepairSummary(pg, id) == IndexDoc(id, Expected(pg, id).(visible := true))
  {
    if id in pg.chunks { Simhash.SignedRoundTrip(pg.chunks[id].sim); }
  }

  /** A row that is still there stands for the document it stood for when it was loaded. */
  lemma EarlierExpected(w: World, pg0: Pg, id: Id)
    requires TablesOk(w) && EarlierTables(w, pg0) && Live(pg0, id) && Live(w.pg, id)
    ensures Expected(w.pg, id) == Expected(pg0, id)
  {
    IdKinds(w.pg);
    IdKinds(pg0);
    hide ChunksOk, SummariesOk, AnchorsOk, PointersOk, InflightOk, ReadingsOk;
    assert KeptRow(pg0, w.pg, id);
  }

  /** The visible document of an active row. */
  predicate IsRebuild(pg: Pg, e: Event) {
    e.IndexDoc? && Live(pg, e.id) && ActiveId(pg, e.id) && e.source == Expected(pg, e.id).(visible := true)
  }

  /** The four kinds of repair events. */
  predicate IsRepair(pg: Pg, c: Reconcile.Drift, e: Event) {
    || IsRebuild(pg, e)
    || e == SetAvailable(c.avail, true) || e == SetAvailable(c.retired, false) || e == Delete(c.orphans)
  }

  lemma RepublishKind(pg: Pg, seen: Index, c: Reconcile.Drift, i: nat)
    requires ChunksOk(pg) && SummariesOk(pg) && Reconcile.Classifies(pg, seen, c) && i < |Reconcile.Republish(pg, c)|
    ensures IsRebuild(pg, Reconcile.Republish(pg, c)[i])
  {
    var rebuild := c.missChunks + c.driftChunks;
    var sums := Reconcile.NonEmpty(pg, c.missSummaries);
    var id := if i < |rebuild| then rebuild[i] else sums[i - |rebuild|];
    assert id in (if i < |rebuild| then rebuild else sums);
    assert Live(pg, id) && ActiveId(pg, id);
    RepairExpected(pg, id);
  }

  lemma RepairKind(pg: Pg, seen: Index, c: Reconcile.Drift, i: nat)
    requires ChunksOk(pg) && SummariesOk(pg) && Reconcile.Classifies(pg, seen, c) && i < |Reconcile.RepairEvents(pg, c)|
    ensures IsRepair(pg, c, Reconcile.RepairEvents(pg, c)[i])
  {
    var n := |Reconcile.Republish(pg, c)|;
    if i < n {
      RepublishKind(pg, seen, c, i);
      assert Reconcile.RepairEvents(pg, c)[i] == Reconcile.Republish(pg, c)[i];
    }
    hide Reconcile.Republish, Reconcile.Classifies, ChunksOk, SummariesOk;
  }

  /** What a reconcile found in the index is of this file, and still there if its row is. */
  lemma FoundIds(w: World, pg0: Pg, seen: Index, c: Reconcile.Drift, id: Id)
    requires TablesOk(w) && Traced(w) && Seen(w.readings, pg0, seen) && Reconcile.Classifies(pg0, seen, c)
    requires id in c.avail || id in c.retired || id in c.orphans
    ensures id in w.issued && (Live(w.pg, id) ==> id in w.es)
  {
    assert id in seen && (Live(pg0, id) || Reconcile.Labelled(pg0, seen[id]));
    assert SeenAt(w.readings, pg0, At(seen, id), id);
    var r :| r in w.readings && r.pg == pg0 && At(r.es, id) == At(seen, id);
    assert LookOk(w, r) && EarlierTables(w, pg0);
    hide Reconcile.Classifies, ChunksOk, SummariesOk, AnchorsOk, PointersOk, InflightOk, Seen;
  }

  lemma RepairEventOk(w: World, pg0: Pg, seen: Index, c: Reconcile.Drift, exact: bool, e: Event)
    requires TablesOk(w) && Traced(w) && Seen(w.readings, pg0, seen) && Reconcile.Classifies(pg0, seen, c)
    requires EarlierTables(w, pg0) && IsRepair(pg0, c, e) && Suits(w.pg, e)
    ensures EventOk(w.pg, w.issued, w.es, exact, e)
  {
    hide Reconcile.Classifies, Seen, Traced, TablesOk, ChunksOk, SummariesOk;
    if e.IndexDoc? {
      EarlierExpected(w, pg0, e.id);
      IndexOk(w.pg, w.issued, w.es, exact, e.id, e.source);
      assert e == IndexDoc(e.id, e.source);
    } else {
      forall id | id in e.ids ensures id in w.issued && (Live(w.pg, id) ==> id in w.es) {
        FoundIds(w, pg0, seen, c, id);
      }
      if e.Delete? {
        DeleteOk(w.pg, w.issued, w.es, exact, e.ids);
      } else {
        SetOk(w.pg, w.issued, w.es, exact, e.ids, e.available);
      }
    }
  }

  /** Without drift there are no orphans. */
  lemma NoOrphans(w: World, c: Reconcile.Drift, exact: bool)
    requires Converging(SafeOf(w.pg, exact), GoodOf(w.pg), w.es, w.outbox) && Reconcile.Classifies(w.pg, w.es, c)
    ensures c.orphans == []
  {
    forall id ensures id !in Reconcile.Orphans(w.pg, w.es) {
      assert SafeOf(w.pg, exact)(id, At(w.es, id));
    }
    assert Reconcile.Orphans(w.pg, w.es) == {};
    ListsCount(c.orphans, Reconcile.Orphans(w.pg, w.es));
  }

  lemma RepairEventsOk(w: World, pg0: Pg, seen: Index, c: Reconcile.Drift, exact: bool)
    requires TablesOk(w) && Traced(w) && Seen(w.readings, pg0, seen) && Reconcile.Classifies(pg0, seen, c)
    requires EarlierTables(w, pg0) && AllFit(w, Reconcile.RepairEvents(pg0, c))
    ensures EventsOk(w.pg, w.issued, w.es, exact, Reconcile.RepairEvents(pg0, c))
  {
    var events := Reconcile.RepairEvents(pg0, c);
    hide EventOk, TablesOk, Reconcile.RepairEvents, Reconcile.Classifies, Traced, Seen, Suits, IsRepair;
    forall i | 0 <= i < |events| ensures EventOk(w.pg, w.issued, w.es, exact, events[i]) {
      assert Fits(w, events[i]);
      RepairKind(pg0, seen, c, i);
      RepairEventOk(w, pg0, seen, c, exact, events[i]);
    }
  }

  /** Committing events that fit leaves everything outstanding fitting. */
  lemma RepairCleared(w: World, events: seq<Event>)
    requires ClearedOk(w) && AllFit(w, events) && forall k :: k in w.outbox ==> k < w.next
    ensures ClearedOk(Emit(w, events))
  {
    var w' := Emit(w, events);
    EnqueueOpen(w.outbox, w.next, w.clock, events);
    hide Enqueue, Live, Suits;
    forall k: nat | Open(w'.outbox, k) && Cleared(w') ensures Fits(w', w'.outbox[k].event) {
      if Open(w.outbox, k) {
        assert Fits(w, w.outbox[k].event);
      } else {
        assert Fits(w, events[k - w.next]);
      }
    }
  }

  lemma LoadedEarlier(w: World, pg0: Pg)
    requires ReadingsOk(w) && Loaded(w.readings, pg0)
    ensures EarlierTables(w, pg0)
  {
  }

  /** However long ago a reconcile loaded the tables and read the index: if its events fit when it commits, the
      invariant holds on. */
  lemma RepairSync(w: World, pg0: Pg, seen: Index, c: Reconcile.Drift, exact: bool)
    requires TablesOk(w) && Traced(w) && Enabled(w, Commit(pg0, seen, c)) && Proper(w, Commit(pg0, seen, c)) && Sync(w, exact)
    ensures Sync(Emit(w, Reconcile.RepairEvents(pg0, c)), exact)
  {
    var events := Reconcile.RepairEvents(pg0, c);
    LoadedEarlier(w, pg0);
    RepairEventsOk(w, pg0, seen, c, exact);
    RepairCleared(w, events);
    hide Reconcile.RepairEvents, Reconcile.Classifies, EventsOk, ChunksOk, SummariesOk, AnchorsOk, PointersOk, InflightOk, ReadingsOk,
      Enqueue, ClearedOk, AllFit, Traced, Seen, EarlierTables;
    SameTables(w, events, exact);
    hide Converging, Unwedged, Scoped, OldEventsOk, DocsOk;
    CommitSync(w, Emit(w, events), events, exact);
  }

  /** With the tables unchanged, old events and documents stay as they are. */
  lemma SameTables(w: World, events: seq<Event>, exact: bool)
    requires Converging(SafeOf(w.pg, exact), GoodOf(w.pg), w.es, w.outbox)
    ensures DocsOk(w, w.pg, exact, events) && OldEventsOk(w, w.pg, exact)
  {
    hide Safe, Good, Sound;
    forall id ensures Safe(w.pg, exact, id, At(w.es, id)) && (Good(w.pg, id, At(w.es, id)) || Covered(w.outbox, id)) {
      assert SafeOf(w.pg, exact)(id, At(w.es, id)) && (GoodOf(w.pg)(id, At(w.es, id)) || Covered(w.outbox, id));
    }
  }

  // ---------- the remaining actions ----------

  lemma BarrierSync(w: World, exact: bool)
    requires TablesOk(w) && Enabled(w, Barrier) && Sync(w, exact)
    ensures Sync(Apply(w, Barrier), exact)
  {
    forall id | Live(w.pg, id) ensures id in w.es {
      assert GoodOf(w.pg)(id, At(w.es, id));
    }
  }

  lemma PruneSync(w: World, aged: set<nat>, exact: bool)
    requires Sync(w, exact)
    ensures Sync(Apply(w, Prune(aged)), exact)
    ensures Apply(w, Prune(aged)).outbox.Keys == w.outbox.Keys - (set k | k in w.outbox && w.outbox[k].published && k in aged)
    ensures forall k | k in Apply(w, Prune(aged)).outbox :: Apply(w, Prune(aged)).outbox[k] == w.outbox[k]
  {
    var w' := Apply(w, Prune(aged));
    assert forall k: nat :: Open(w'.outbox, k) <==> Open(w.outbox, k);
    assert forall k: nat :: Open(w.outbox, k) ==> w'.outbox[k] == w.outbox[k];
    forall id | Covered(w.outbox, id) ensures Covered(w'.outbox, id) {
      var k: nat :| Open(w.outbox, k) && Mentions(w.outbox[k].event, id);
      assert Open(w'.outbox, k) && Mentions(w'.outbox[k].event, id);
    }
    forall id | DeletePending(w'.outbox, id) ensures DeletePending(w.outbox, id) {
      var k: nat :| Open(w'.outbox, k) && w'.outbox[k].event.Delete? && id in w'.outbox[k].event.ids;
      assert Open(w.outbox, k);
    }
  }

  lemma RelocateSync(w: World, summary: Id, target: Id, exact: bool)
    requires Sync(w, exact)
    ensures Sync(w.(pg := RelocatePg(w.pg, summary, target)), exact)
  {
    var w' := w.(pg := RelocatePg(w.pg, summary, target));
    forall id ensures SameRow(w.pg, w'.pg, id) { }
    FrameEvents(w, w'.pg, exact);
    forall id
      ensures SafeOf(w'.pg, exact)(id, At(w.es, id)) && (GoodOf(w'.pg)(id, At(w.es, id)) || Covered(w.outbox, id))
      ensures Live(w'.pg, id) == Live(w.pg, id)
    {
      assert SafeOf(w.pg, exact)(id, At(w.es, id)) && (GoodOf(w.pg)(id, At(w.es, id)) || Covered(w.outbox, id));
      FrameRow(w.pg, w'.pg, exact, id);
    }
    RelocateFits(w, w');
  }

  /** What fits depends on chunks, summaries and pointers only. */
  lemma RelocateFits(w: World, w': World)
    requires w'.pg.chunks == w.pg.chunks && w'.pg.summaries == w.pg.summaries && w'.pg.active == w.pg.active && w'.inflight == w.inflight
    ensures forall e :: Fits(w', e) == Fits(w, e)
  {
  }

  lemma ForeignDoc(w: World, es': Index, exact: bool, id: Id)
    requires IssuedOk(w) && ForeignOk(w, es') && Converging(SafeOf(w.pg, exact), GoodOf(w.pg), w.es, w.outbox)
    ensures Safe(w.pg, exact, id, At(es', id)) && (Good(w.pg, id, At(es', id)) || Covered(w.outbox, id))
    ensures id in w.issued ==> At(es', id) == At(w.es, id)
    ensures id in es' && id !in w.es ==> !(id.ChunkId? && id.file == w.pg.file)
  {
    assert SafeOf(w.pg, exact)(id, At(w.es, id)) && (GoodOf(w.pg)(id, At(w.es, id)) || Covered(w.outbox, id));
  }

  lemma ForeignSync(w: World, es': Index, exact: bool)
    requires TablesOk(w) && ForeignOk(w, es') && Sync(w, exact)
    ensures Sync(Apply(w, Foreign(es')), exact)
  {
    hide ForeignOk, Safe, Good, Sound;
    forall id
      ensures SafeOf(w.pg, exact)(id, At(es', id)) && (GoodOf(w.pg)(id, At(es', id)) || Covered(w.outbox, id))
      ensures id in w.issued ==> (id in es' <==> id in w.es)
      ensures id in es' && id !in w.es ==> !(id.ChunkId? && id.file == w.pg.file)
    {
      ForeignDoc(w, es', exact, id);
    }
  }

  lemma SyncStep(w: World, a: Action, exact: bool)
    requires TablesOk(w) && Traced(w) && Enabled(w, a) && Proper(w, a) && Sync(w, exact) && (exact ==> Apply(w, a).exact)
    ensures Sync(Apply(w, a), exact)
  {
    hide Sync, TablesOk, Traced;
    match a
    case Stage(s) => StageSync(w, s, exact);
    case Attempt(k, calls, committed) => AttemptKeeps(w, k, calls, committed, exact);
    case Barrier => BarrierSync(w, exact);
    case Flip(oldIds) => FlipSync(w, oldIds, exact);
    case Abort => SameSync(w, Apply(w, a), exact);
    case Collect(retain, c, s) => CollectSync(w, retain, c, s, exact);
    case Load => SameSync(w, Apply(w, a), exact);
    case Look(_) => SameSync(w, Apply(w, a), exact);
    case Commit(pg, seen, c) => RepairSync(w, pg, seen, c, exact);
    case Prune(aged) => PruneSync(w, aged, exact);
    case Relocate(id, target) => RelocateSync(w, id, target, exact);
    case Foreign(es') => ForeignSync(w, es', exact);
  }

  lemma SameSync(w: World, w': World, exact: bool)
    requires Sync(w, exact) && w'.pg == w.pg && w'.es == w.es && w'.outbox == w.outbox && w'.issued == w.issued
    requires w'.inflight == w.inflight || w'.inflight == None
    ensures Sync(w', exact)
  {
  }

  // ---------- what reconciles have seen ----------

  /** An index that keeps the documents of live rows, and writes documents of this file's ids under its label only. */
  lemma TracedOn(w: World, w': World)
    requires Traced(w) && LabelsOk(w') && w'.readings == w.readings && w.issued <= w'.issued
    requires w'.pg.file == w.pg.file && w'.pg.tenant == w.pg.tenant
    requires forall id | id in w.issued && Live(w'.pg, id) :: Live(w.pg, id) && (id in w.es ==> id in w'.es)
    ensures Traced(w')
  {
    forall r | r in w'.readings ensures LookOk(w', r) {
      assert LookOk(w, r);
    }
  }

  lemma AttemptDoc(w: World, k: nat, calls: nat, id: Id)
    requires Sync(w, false) && Open(w.outbox, k)
    ensures var es' := Publish(w.outbox[k].event, w.es, calls).0;
      && (Live(w.pg, id) && id in w.es ==> id in es')
      && (id in es' ==> (id in w.es && Reconcile.Labelled(w.pg, es'[id]) == Reconcile.Labelled(w.pg, w.es[id]))
                        || (id in w.issued && Reconcile.Labelled(w.pg, es'[id])))
  {
    var e := w.outbox[k].event;
    var es' := Publish(e, w.es, calls).0;
    PublishBetween(e, w.es, calls);
    hide Publish;
    assert At(es', id) == At(w.es, id) || (Mentions(e, id) && At(es', id) == Effect(e, At(w.es, id)));
    if e.IndexDoc? && Mentions(e, id) {
      assert Sound(SafeOf(w.pg, false), GoodOf(w.pg), e);
      assert SafeOf(w.pg, false)(id, None);
      assert SafeOf(w.pg, false)(id, Effect(e, None));
    }
  }

  lemma AttemptTraced(w: World, k: nat, calls: nat, committed: bool)
    requires Sync(w, false) && Traced(w) && Open(w.outbox, k)
    ensures Traced(AttemptWorld(w, k, calls, committed))
  {
    var w' := AttemptWorld(w, k, calls, committed);
    hide Sync, Publish;
    forall id
      ensures Live(w.pg, id) && id in w.es ==> id in w'.es
      ensures id in w'.es ==> (id in w.issued <==> Reconcile.Labelled(w.pg, w'.es[id]))
    {
      AttemptDoc(w, k, calls, id);
    }
    TracedOn(w, w');
  }

  lemma StageTraced(w: World, s: Staging)
    requires TablesOk(w) && Sync(w, false) && Traced(w) && StageOk(w, s)
    ensures Traced(StageWorld(w, s))
  {
    var w' := StageWorld(w, s);
    StageKeptRows(w, s);
    StageFile(w.pg, s);
    StageIssues(w, s);
    assert w'.pg == StagePg(w.pg, s) && w'.es == w.es && w'.readings == w.readings;
    hide StageWorld, StagePg, StageOk, TablesOk, Sync, LookOk, Live;
    TracedOn(w, w');
  }

  /** No id handed out by a staging has a document yet. */
  lemma StageIssues(w: World, s: Staging)
    requires IssuedOk(w) && StageOk(w, s) && NoFutureDocs(w)
    ensures w.issued <= StageWorld(w, s).issued && forall id | id in w.es && id in StageWorld(w, s).issued :: id in w.issued
  {
    StagedIds(w, s);
    hide StageWorld, StageOk, NewIds, IssuedOk, NoFutureDocs;
    forall id ensures id in NewIds(s) || id in s.anchorIds ==> id !in w.es {
      if id in NewIds(s) {
        StageNoDoc(w, s, id);
      } else if id in s.anchorIds {
        StageAnchorNew(w, s, id);
      }
    }
  }

  lemma StagedIds(w: World, s: Staging)
    requires Shaped(s)
    ensures StageWorld(w, s).issued == w.issued + Members(NewIds(s)) + Members(s.anchorIds)
  {
    hide NewIds, StagePg, StageEvents, Enqueue;
  }

  lemma StageAnchorNew(w: World, s: Staging, id: Id)
    requires FreshUuids(w, s.anchorIds) && id in s.anchorIds
    ensures id !in w.es
  {
  }

  lemma CollectTraced(w: World, retain: nat, chunkIds: seq<Id>, summaryIds: seq<Id>)
    requires Traced(w) && Enabled(w, Collect(retain, chunkIds, summaryIds))
    ensures Traced(Apply(w, Collect(retain, chunkIds, summaryIds)))
  {
    PurgeLive(w.pg, Gc.Threshold(w.pg, retain));
    hide Gc.DeleteEvents, Gc.AtLeast, Live;
    TracedOn(w, Apply(w, Collect(retain, chunkIds, summaryIds)));
  }

  lemma FlipTraced(w: World, oldIds: seq<Id>)
    requires Traced(w) && Enabled(w, Flip(oldIds))
    ensures Traced(Apply(w, Flip(oldIds)))
  {
    forall id { FlipFrame(w.pg, w.inflight.value.target, false, id); }
    hide FlipEvents, Live;
    TracedOn(w, Apply(w, Flip(oldIds)));
  }

  lemma ForeignTraced(w: World, es': Index)
    requires Traced(w) && ForeignOk(w, es')
    ensures Traced(w.(es := es'))
  {
    forall id
      ensures id in w.issued ==> At(es', id) == At(w.es, id)
      ensures id in es' ==> (id in w.issued <==> Reconcile.Labelled(w.pg, es'[id]))
    {
      assert At(es', id) == At(w.es, id) || (Alien(w, id, At(es', id)) && Alien(w, id, At(w.es, id)));
    }
    TracedOn(w, w.(es := es'));
  }

  lemma LookTraced(w: World, pg0: Pg)
    requires TablesOk(w) && Traced(w) && (pg0 == w.pg || Loaded(w.readings, pg0))
    ensures Traced(w.(readings := w.readings + {Reading(pg0, w.es)}))
  {
    var w' := w.(readings := w.readings + {Reading(pg0, w.es)});
    assert forall id :: Live(pg0, id) ==> id in w.issued;
    forall r | r in w'.readings ensures LookOk(w', r) {
      if r in w.readings { assert LookOk(w, r); }
    }
  }

  lemma TracedKept(w: World, a: Action)
    requires TablesOk(w) && Traced(w) && Enabled(w, a) && Proper(w, a) && Sync(w, false)
    ensures Traced(Apply(w, a))
  {
    hide TablesOk, Sync, Reconcile.RepairEvents, Reconcile.Classifies;
    match a
    case Stage(s) => StageTraced(w, s);
    case Attempt(k, calls, committed) => AttemptTraced(w, k, calls, committed);
    case Flip(oldIds) => FlipTraced(w, oldIds);
    case Collect(retain, c, s) => CollectTraced(w, retain, c, s);
    case Load => LookTraced(w, w.pg);
    case Look(pg) => LookTraced(w, pg);
    case Foreign(es') => ForeignTraced(w, es');
    case Barrier => TracedOn(w, Apply(w, a));
    case Abort => TracedOn(w, Apply(w, a));
    case Commit(_, _, _) => TracedOn(w, Apply(w, a));
    case Prune(_) => TracedOn(w, Apply(w, a));
    case Relocate(_, _) => TracedOn(w, Apply(w, a));
  }

  /** Every action keeps the invariant, except writes from outside and repairs that no longer fit. */
  lemma SyncKept(w: World, a: Action)
    requires TablesOk(w) && Enabled(w, a) && Proper(w, a) && SyncOk(w)
    ensures SyncOk(Apply(w, a))
  {
    hide TablesOk, Sync, Traced, Enabled, Apply, Proper;
    SyncStep(w, a, false);
    TracedKept(w, a);
    ExactOnce(w, a);
    if Apply(w, a).exact {
      SyncStep(w, a, true);
    }
  }

  lemma ExactOnce(w: World, a: Action)
    requires Enabled(w, a)
    ensures Apply(w, a).exact ==> w.exact
  {
    match a
    case Stage(_) =>
    case Collect(_, _, _) =>
    case _ =>
  }
}
